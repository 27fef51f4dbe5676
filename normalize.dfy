/**
 * The response normalisers `parsePage`, `parseVersion` and `parseAnnotation`:
 * a shallow copy of the received record with its timestamp fields replaced by
 * `Date` objects, and for a page its embedded versions normalised in turn.
 */
module Normalize {
  import opened Wrappers
  import opened Json

  /**
   * `new Date(x)` as performed by the host: ISO-8601 parsing is not part of
   * this model, so the parser is a parameter of every normaliser.
   */
  type DateParser = Value -> Instant

  const PageDateFields: set<string> := {"created_at", "updated_at"}
  const VersionDateFields: set<string> := {"capture_time", "created_at", "updated_at"}
  const AnnotationDateFields: set<string> := {"created_at", "updated_at"}

  /**
   * `Object.assign({}, data, {f: new Date(data.f), ...})` for the fields in
   * `fields`: the fields become dates parsed from their old values, every
   * other own property is copied.
   */
  function StampDates(parse: DateParser, data: Value, fields: set<string>): (r: Record)
    ensures r.Keys == OwnProps(data).Keys + fields
    ensures forall k :: k in fields ==> r[k] == Date(parse(Prop(data, k)))
    ensures forall k :: k in OwnProps(data) && k !in fields ==> r[k] == OwnProps(data)[k]
  {
    OwnProps(data) + map k | k in fields :: Date(parse(Prop(data, k)))
  }

  /** `parseVersion(data)`; reading `data.capture_time` raises TypeError for null or undefined. */
  function ParseVersion(parse: DateParser, data: Value): (r: Result<Record, JsError>)
    ensures r.Failure? <==> IsNullish(data)
    ensures r.Failure? ==> r.error == TypeError
    ensures r.Success? ==> r.value.Keys == OwnProps(data).Keys + {"capture_time", "created_at", "updated_at"}
    ensures r.Success? ==>
              && r.value["capture_time"] == Date(parse(Prop(data, "capture_time")))
              && r.value["created_at"] == Date(parse(Prop(data, "created_at")))
              && r.value["updated_at"] == Date(parse(Prop(data, "updated_at")))
    ensures r.Success? ==>
              forall k :: k in OwnProps(data) && k !in VersionDateFields ==> r.value[k] == OwnProps(data)[k]
  {
    if IsNullish(data) then Failure(TypeError)
    else Success(StampDates(parse, data, VersionDateFields))
  }

  /** `parseAnnotation(data)`. */
  function ParseAnnotation(parse: DateParser, data: Value): (r: Result<Record, JsError>)
    ensures r.Failure? <==> IsNullish(data)
    ensures r.Failure? ==> r.error == TypeError
    ensures r.Success? ==> r.value.Keys == OwnProps(data).Keys + {"created_at", "updated_at"}
    ensures r.Success? ==>
              && r.value["created_at"] == Date(parse(Prop(data, "created_at")))
              && r.value["updated_at"] == Date(parse(Prop(data, "updated_at")))
    ensures r.Success? ==>
              forall k :: k in OwnProps(data) && k !in AnnotationDateFields ==> r.value[k] == OwnProps(data)[k]
  {
    if IsNullish(data) then Failure(TypeError)
    else Success(StampDates(parse, data, AnnotationDateFields))
  }

  /** Index `i` is the first element on which `f` raises. */
  predicate FailsFirstAt(f: Value -> Result<Record, JsError>, items: seq<Value>, i: int) {
    && 0 <= i < |items|
    && f(items[i]).Failure?
    && forall j :: 0 <= j < i ==> f(items[j]).Success?
  }

  /**
   * `items.map(f)` for a normaliser `f`: the elements in order, each replaced
   * by the object `f` builds from it; the first exception aborts the map.
   */
  function ParseEach(f: Value -> Result<Record, JsError>, items: seq<Value>): (r: Result<seq<Value>, JsError>)
    ensures r.Success? <==> forall i :: 0 <= i < |items| ==> f(items[i]).Success?
    ensures r.Success? ==> |r.value| == |items|
    ensures r.Success? ==> forall i :: 0 <= i < |items| ==> r.value[i] == Obj(f(items[i]).value)
    ensures r.Failure? ==> exists i :: FailsFirstAt(f, items, i) && f(items[i]) == Failure(r.error)
  {
    if items == [] then Success([])
    else
      match f(items[0])
      case Failure(e) =>
        assert FailsFirstAt(f, items, 0);
        Failure(e)
      case Success(head) =>
        match ParseEach(f, items[1..])
        case Failure(e) =>
          var i :| FailsFirstAt(f, items[1..], i) && f(items[1..][i]) == Failure(e);
          assert forall j :: 1 <= j <= i ==> items[j] == items[1..][j - 1];
          assert FailsFirstAt(f, items, i + 1);
          Failure(e)
        case Success(tail) => Success([Obj(head)] + tail)
  }

  /**
   * `v.map(f)` on a value that is not null or undefined: only arrays have a
   * `map` method, so on anything else the call raises TypeError.
   */
  function MapArray(f: Value -> Result<Record, JsError>, v: Value): (r: Result<Value, JsError>)
    ensures !v.Arr? ==> r == Failure(TypeError)
    ensures v.Arr? ==> (r.Success? <==> ParseEach(f, v.items).Success?)
    ensures v.Arr? && r.Success? ==> r == Success(Arr(ParseEach(f, v.items).value))
    ensures v.Arr? && r.Failure? ==> r.error == ParseEach(f, v.items).error
  {
    if v.Arr? then
      match ParseEach(f, v.items)
      case Failure(e) => Failure(e)
      case Success(items) => Success(Arr(items))
    else Failure(TypeError)
  }

  /** `parseVersion` as the callback handed to `map`. */
  function VersionParser(parse: DateParser): (f: Value -> Result<Record, JsError>)
    ensures forall v :: f(v) == ParseVersion(parse, v)
  {
    v => ParseVersion(parse, v)
  }

  /** `parsePage` as the callback handed to `map`. */
  function PageParser(parse: DateParser): (f: Value -> Result<Record, JsError>)
    ensures forall v :: f(v) == ParsePage(parse, v)
  {
    v => ParsePage(parse, v)
  }

  /** A `versions` value that `versions.map(parseVersion)` maps without raising. */
  predicate MapsAsVersions(versions: Value) {
    versions.Arr? && forall i :: 0 <= i < |versions.items| ==> !IsNullish(versions.items[i])
  }

  /** `if (page.latest) page.latest = parseVersion(page.latest)`: a truthy value is never null, so this cannot raise. */
  function NormalizeLatest(parse: DateParser, page: Record): (r: Record)
    ensures r.Keys == page.Keys
    ensures forall k :: k in page && k != "latest" ==> r[k] == page[k]
    ensures Truthy(Get(page, "latest")) ==> r["latest"] == Obj(ParseVersion(parse, page["latest"]).value)
    ensures !Truthy(Get(page, "latest")) ==> r == page
  {
    var latest := Get(page, "latest");
    if Truthy(latest) then page["latest" := Obj(ParseVersion(parse, latest).value)] else page
  }

  /** `if (page.versions) page.versions = page.versions.map(parseVersion)`. */
  function NormalizeVersions(parse: DateParser, page: Record): (r: Result<Record, JsError>)
    ensures var versions := Get(page, "versions");
            r.Failure? <==> Truthy(versions) && !MapsAsVersions(versions)
    ensures r.Failure? ==> r.error == TypeError
    ensures r.Success? ==> r.value.Keys == page.Keys
    ensures r.Success? ==> forall k :: k in page && k != "versions" ==> r.value[k] == page[k]
    ensures var versions := Get(page, "versions");
            r.Success? && Truthy(versions) ==>
              && r.value["versions"].Arr?
              && |r.value["versions"].items| == |versions.items|
              && forall i :: 0 <= i < |versions.items| ==>
                   r.value["versions"].items[i] == Obj(ParseVersion(parse, versions.items[i]).value)
    ensures !Truthy(Get(page, "versions")) ==> r == Success(page)
  {
    var versions := Get(page, "versions");
    if Truthy(versions) then
      match MapArray(VersionParser(parse), versions)
      case Failure(e) => Failure(e)
      case Success(vs) => Success(page["versions" := vs])
    else Success(page)
  }

  /** `parsePage(data)`: dates stamped, then a truthy `latest` and a truthy `versions` re-normalised. */
  function ParsePage(parse: DateParser, data: Value): (r: Result<Record, JsError>)
    ensures var versions := Get(OwnProps(data), "versions");
            r.Failure? <==> IsNullish(data) || (Truthy(versions) && !MapsAsVersions(versions))
    ensures r.Failure? ==> r.error == TypeError
    ensures r.Success? ==> r.value.Keys == OwnProps(data).Keys + {"created_at", "updated_at"}
    ensures r.Success? ==>
              && r.value["created_at"] == Date(parse(Prop(data, "created_at")))
              && r.value["updated_at"] == Date(parse(Prop(data, "updated_at")))
    ensures r.Success? ==>
              forall k :: k in OwnProps(data) && k !in PageDateFields && k != "latest" && k != "versions" ==>
                r.value[k] == OwnProps(data)[k]
    ensures var latest := Get(OwnProps(data), "latest");
            && (r.Success? && Truthy(latest) ==> r.value["latest"] == Obj(ParseVersion(parse, latest).value))
            && (r.Success? && !Truthy(latest) ==> Get(r.value, "latest") == latest)
    ensures var versions := Get(OwnProps(data), "versions");
            && (r.Success? && Truthy(versions) ==>
                  && r.value["versions"].Arr?
                  && |r.value["versions"].items| == |versions.items|
                  && forall i :: 0 <= i < |versions.items| ==>
                       r.value["versions"].items[i] == Obj(ParseVersion(parse, versions.items[i]).value))
            && (r.Success? && !Truthy(versions) ==> Get(r.value, "versions") == versions)
  {
    if IsNullish(data) then Failure(TypeError)
    else
      var stamped := StampDates(parse, data, PageDateFields);
      assert "latest" !in PageDateFields && "versions" !in PageDateFields;
      assert Get(stamped, "latest") == Get(OwnProps(data), "latest");
      var withLatest := NormalizeLatest(parse, stamped);
      assert Get(withLatest, "versions") == Get(OwnProps(data), "versions");
      NormalizeVersions(parse, withLatest)
  }

  /**
   * ECMAScript's `new Date(d)` for a `Date` argument copies its time value;
   * a parser with this property lets normalised records be normalised again.
   */
  ghost predicate CopiesDates(parse: DateParser) {
    forall t :: parse(Date(t)) == t
  }

  /** The invariant every version record has once normalised: its three timestamps are dates. */
  ghost predicate IsNormalizedVersion(v: Value) {
    && v.Obj?
    && (forall k :: k in VersionDateFields ==> k in v.fields && v.fields[k].Date?)
  }

  /**
   * The invariant every page record has once normalised: its timestamps are
   * dates, a truthy `latest` is a normalised version and a truthy `versions`
   * is an array of normalised versions.
   */
  ghost predicate IsNormalizedPage(p: Record) {
    && (forall k :: k in PageDateFields ==> k in p && p[k].Date?)
    && (Truthy(Get(p, "latest")) ==> IsNormalizedVersion(p["latest"]))
    && (Truthy(Get(p, "versions")) ==>
          && p["versions"].Arr?
          && forall i :: 0 <= i < |p["versions"].items| ==> IsNormalizedVersion(p["versions"].items[i]))
  }

  /** Normalising a version establishes the timestamp invariant. */
  lemma ParseVersionNormalizes(parse: DateParser, data: Value)
    requires !IsNullish(data)
    ensures ParseVersion(parse, data).Success?
    ensures IsNormalizedVersion(Obj(ParseVersion(parse, data).value))
  {
  }

  /**
   * A successfully normalised page satisfies the timestamp invariant, down
   * to the versions embedded in it; a truthy `latest` that was not an
   * object becomes one.
   */
  lemma ParsePageNormalizes(parse: DateParser, data: Value)
    requires ParsePage(parse, data).Success?
    ensures IsNormalizedPage(ParsePage(parse, data).value)
  {
    var p := ParsePage(parse, data).value;
    var latest := Get(OwnProps(data), "latest");
    var versions := Get(OwnProps(data), "versions");
    assert forall k :: k in PageDateFields ==> k in p && p[k].Date?;
    assert Truthy(Get(p, "latest")) ==> IsNormalizedVersion(p["latest"]) by {
      if Truthy(latest) {
        ParseVersionNormalizes(parse, latest);
      } else {
        assert Get(p, "latest") == latest;
      }
    }
    assert Truthy(Get(p, "versions")) ==>
             && p["versions"].Arr?
             && forall i :: 0 <= i < |p["versions"].items| ==> IsNormalizedVersion(p["versions"].items[i]) by {
      if Truthy(versions) {
        var items := p["versions"].items;
        assert |items| == |versions.items|;
        forall i | 0 <= i < |items| ensures IsNormalizedVersion(items[i]) {
          ParseVersionNormalizes(parse, versions.items[i]);
        }
      } else {
        assert Get(p, "versions") == versions;
      }
    }
  }

  /** Stamping fields that already hold dates, with a parser that copies dates, is the identity. */
  lemma StampDatesFixed(parse: DateParser, m: Record, fields: set<string>)
    requires CopiesDates(parse)
    requires forall k :: k in fields ==> k in m && m[k].Date?
    ensures StampDates(parse, Obj(m), fields) == m
  {
  }

  /** A version that is already normalised is a fixed point of the version normaliser. */
  lemma NormalizedVersionFixed(parse: DateParser, v: Value)
    requires CopiesDates(parse)
    requires IsNormalizedVersion(v)
    ensures ParseVersion(parse, v) == Success(v.fields)
  {
    StampDatesFixed(parse, v.fields, VersionDateFields);
  }

  /** Normalising an already normalised version changes nothing. */
  lemma ParseVersionIdempotent(parse: DateParser, data: Value)
    requires CopiesDates(parse)
    requires !IsNullish(data)
    ensures ParseVersion(parse, Obj(ParseVersion(parse, data).value)) == ParseVersion(parse, data)
  {
    StampDatesFixed(parse, ParseVersion(parse, data).value, VersionDateFields);
  }

  /** Normalising an already normalised annotation changes nothing. */
  lemma ParseAnnotationIdempotent(parse: DateParser, data: Value)
    requires CopiesDates(parse)
    requires !IsNullish(data)
    ensures ParseAnnotation(parse, Obj(ParseAnnotation(parse, data).value)) == ParseAnnotation(parse, data)
  {
    StampDatesFixed(parse, ParseAnnotation(parse, data).value, AnnotationDateFields);
  }

  /** An array of normalised versions is left as it is by `NormalizeVersions`. */
  lemma NormalizedVersionsFixed(parse: DateParser, p: Record)
    requires CopiesDates(parse)
    requires var versions := Get(p, "versions");
             Truthy(versions) ==>
               && versions.Arr?
               && forall i :: 0 <= i < |versions.items| ==> IsNormalizedVersion(versions.items[i])
    ensures NormalizeVersions(parse, p) == Success(p)
  {
    var versions := Get(p, "versions");
    if Truthy(versions) {
      var ws := versions.items;
      forall i | 0 <= i < |ws| ensures ParseVersion(parse, ws[i]) == Success(ws[i].fields) {
        NormalizedVersionFixed(parse, ws[i]);
      }
      assert MapsAsVersions(versions);
      var r := NormalizeVersions(parse, p).value;
      assert r["versions"].items == ws;
      assert r == p;
    }
  }

  /** A page that is already normalised is a fixed point of the page normaliser. */
  lemma NormalizedPageFixed(parse: DateParser, p: Record)
    requires CopiesDates(parse)
    requires IsNormalizedPage(p)
    ensures ParsePage(parse, Obj(p)) == Success(p)
  {
    StampDatesFixed(parse, p, PageDateFields);
    var latest := Get(p, "latest");
    if Truthy(latest) {
      NormalizedVersionFixed(parse, latest);
    }
    assert NormalizeLatest(parse, p) == p;
    NormalizedVersionsFixed(parse, p);
  }

  /** Normalising an already normalised page changes nothing, embedded versions included. */
  lemma ParsePageIdempotent(parse: DateParser, data: Value)
    requires CopiesDates(parse)
    requires ParsePage(parse, data).Success?
    ensures ParsePage(parse, Obj(ParsePage(parse, data).value)) == ParsePage(parse, data)
  {
    ParsePageNormalizes(parse, data);
    NormalizedPageFixed(parse, ParsePage(parse, data).value);
  }

  /**
   * `data.map(parsePage)` in `getPages`: when every element is a page
   * `parsePage` accepts, the map succeeds, and applied again to the list it
   * produced it changes nothing.
   */
  lemma ParsePagesIdempotent(parse: DateParser, items: seq<Value>)
    requires CopiesDates(parse)
    requires forall i :: 0 <= i < |items| ==> ParsePage(parse, items[i]).Success?
    ensures ParseEach(PageParser(parse), items).Success?
    ensures var pages := ParseEach(PageParser(parse), items).value;
            ParseEach(PageParser(parse), pages) == Success(pages)
  {
    var f := PageParser(parse);
    var pages := ParseEach(f, items).value;
    forall i | 0 <= i < |pages| ensures f(pages[i]) == Success(pages[i].fields) {
      ParsePageIdempotent(parse, items[i]);
    }
    assert ParseEach(f, pages).value == pages;
  }

  /**
   * When a page carries no truthy `latest` or `versions`, the page normaliser
   * does exactly what the annotation normaliser does: both stamp
   * `created_at` and `updated_at` only.
   */
  lemma ParsePageWithoutVersions(parse: DateParser, data: Value)
    requires !Truthy(Get(OwnProps(data), "latest")) && !Truthy(Get(OwnProps(data), "versions"))
    ensures ParsePage(parse, data) == ParseAnnotation(parse, data)
  {
  }
}
