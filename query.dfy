/**
 * The query string `createUrl` appends: one component per entry, in order,
 * joined with '&'. `Split` is the reader's side, splitting text at a
 * separator, and shows that the components can be recovered.
 */
module Query {
  import opened Wrappers

  /** One enumerable property of the query object; `None` stands for a value that is null or undefined. */
  datatype QueryEntry = QueryEntry(key: string, value: Option<string>)

  /** An `encodeURIComponent` that never emits '&' or '=', which the ECMAScript function escapes. */
  ghost predicate EscapesDelimiters(enc: string -> string) {
    forall s :: '&' !in enc(s) && '=' !in enc(s)
  }

  /** The parts a component is read back as: the encoded key, then the encoded value when there is one. */
  function Fields(enc: string -> string, e: QueryEntry): seq<string> {
    match e.value
    case None => [enc(e.key)]
    case Some(v) => [enc(e.key), enc(v)]
  }

  /**
   * The component an entry contributes: the bare encoded key, or `key=value`,
   * both encoded. With an encoder that escapes the delimiters it holds no
   * '&', and it splits at '=' into the encoded key and value.
   */
  function Component(enc: string -> string, e: QueryEntry): (c: string)
    ensures EscapesDelimiters(enc) ==> '&' !in c
    ensures EscapesDelimiters(enc) ==> Split(c, '=') == Fields(enc, e)
  {
    var c := match e.value
      case None => enc(e.key)
      case Some(v) => enc(e.key) + "=" + enc(v);
    assert EscapesDelimiters(enc) ==> '&' !in c && Split(c, '=') == Fields(enc, e) by {
      if EscapesDelimiters(enc) {
        assert '&' !in enc(e.key) && '=' !in enc(e.key);
        if e.value.None? {
          SplitPiece(enc(e.key), '=');
        } else {
          var v := enc(e.value.value);
          assert '&' !in v && '=' !in v;
          SplitAfterPiece(enc(e.key), '=', v);
          SplitPiece(v, '=');
        }
      }
    }
    c
  }

  /** The components of all entries, in key-iteration order. */
  function Components(enc: string -> string, q: seq<QueryEntry>): (parts: seq<string>)
    ensures |parts| == |q|
    ensures forall i :: 0 <= i < |q| ==> parts[i] == Component(enc, q[i])
  {
    seq(|q|, i requires 0 <= i < |q| => Component(enc, q[i]))
  }

  /**
   * `parts.join(sep)`: the parts in order with one separator between
   * neighbours, so the text starts with the first part, holds a separator
   * once there are two parts, and holds no other characters.
   */
  function Join(parts: seq<string>, sep: char): (r: string)
    ensures |parts| == 0 ==> r == ""
    ensures |parts| >= 1 ==> |parts[0]| <= |r| && r[..|parts[0]|] == parts[0]
    ensures |parts| >= 2 ==> sep in r
    ensures forall c :: c in r ==> c == sep || exists i :: 0 <= i < |parts| && c in parts[i]
  {
    if |parts| == 0 then ""
    else if |parts| == 1 then parts[0]
    else parts[0] + [sep] + Join(parts[1..], sep)
  }

  /** `s.split(sep)`: the pieces between separators; there is always at least one. */
  function Split(s: string, sep: char): (pieces: seq<string>)
    ensures |pieces| >= 1
  {
    if s == [] then [""]
    else
      var rest := Split(s[1..], sep);
      if s[0] == sep then [""] + rest else [[s[0]] + rest[0]] + rest[1..]
  }

  /** Splitting a piece free of the separator, followed by the separator and more text. */
  lemma {:induction false} SplitAfterPiece(p: string, sep: char, rest: string)
    requires sep !in p
    ensures Split(p + [sep] + rest, sep) == [p] + Split(rest, sep)
    decreases |p|
  {
    if p == [] {
      assert p + [sep] + rest == [sep] + rest;
    } else {
      var s := p + [sep] + rest;
      assert s[0] == p[0] != sep;
      assert s[1..] == p[1..] + [sep] + rest;
      SplitAfterPiece(p[1..], sep, rest);
      assert [p[0]] + p[1..] == p;
    }
  }

  /** A piece free of the separator splits to itself. */
  lemma {:induction false} SplitPiece(p: string, sep: char)
    requires sep !in p
    ensures Split(p, sep) == [p]
    decreases |p|
  {
    if p != [] {
      SplitPiece(p[1..], sep);
      assert [p[0]] + p[1..] == p;
    }
  }

  /** Splitting a join gives the parts back, provided no part holds the separator. */
  lemma {:induction false} SplitJoin(parts: seq<string>, sep: char)
    requires |parts| >= 1
    requires forall i :: 0 <= i < |parts| ==> sep !in parts[i]
    ensures Split(Join(parts, sep), sep) == parts
    decreases |parts|
  {
    if |parts| == 1 {
      SplitPiece(parts[0], sep);
    } else {
      SplitJoin(parts[1..], sep);
      SplitAfterPiece(parts[0], sep, Join(parts[1..], sep));
      assert parts == [parts[0]] + parts[1..];
    }
  }

  /**
   * The query string can be read back: with an encoder that escapes '&' and
   * '=', splitting at '&' recovers one component per entry, in order, and
   * splitting a component at '=' gives the encoded key, followed by the
   * encoded value exactly when the value is not null or undefined.
   */
  lemma QueryStringRoundTrip(enc: string -> string, q: seq<QueryEntry>)
    requires EscapesDelimiters(enc)
    requires |q| >= 1
    ensures Split(Join(Components(enc, q), '&'), '&') == Components(enc, q)
    ensures forall i :: 0 <= i < |q| ==>
              Split(Components(enc, q)[i], '=') ==
                (if q[i].value.None? then [enc(q[i].key)] else [enc(q[i].key), enc(q[i].value.value)])
  {
    SplitJoin(Components(enc, q), '&');
  }
}
