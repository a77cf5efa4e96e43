/**
 * Merchant ingestion (cloud function `getMerchants`): validate and clean the
 * points of interest a place search returns, and insert-or-update them in the
 * merchants collection keyed by the provider's id.
 *
 * The HTTPS request and its JSON parsing are abstract (`response`); the
 * collection is a sequence of records; the records whose database step throws
 * are given by their position (`failing`); one clock reading `now` is used
 * for the whole run.
 */
module GetMerchants {
  import opened Wrappers
  import opened Text

  // ---------------------------------------------------------------------
  // JavaScript number parsing
  // ---------------------------------------------------------------------

  /** The sign prefix of a numeric string: its length and its factor. */
  function SignOf(t: string): (r: (nat, int))
    ensures r.0 <= 1 && r.0 <= |t| && (r.1 == 1 || r.1 == -1)
  {
    if t != [] && t[0] == '-' then (1, -1)
    else if t != [] && t[0] == '+' then (1, 1)
    else (0, 1)
  }

  /**
   * `parseInt(s)`: leading white space, an optional sign, then the longest run
   * of decimal digits; `None` is NaN (no digit).
   */
  function ParseInt(s: string): Option<int> {
    var t := TrimStart(s);
    var (skip, sign) := SignOf(t);
    var body := t[skip..];
    var n := LeadingDigits(body);
    var magnitude: int := DigitsValue(body[..n]);
    if n == 0 then None else Some(if sign < 0 then -magnitude else magnitude)
  }

  /**
   * `parseFloat(s)`: leading white space, an optional sign, digits with an
   * optional fraction, at least one digit in all; `None` is NaN.
   */
  function ParseFloat(s: string): Option<real> {
    var t := TrimStart(s);
    var (skip, sign) := SignOf(t);
    var body := t[skip..];
    var n := LeadingDigits(body);
    var rest := body[n..];
    var f := if rest != [] && rest[0] == '.' then LeadingDigits(rest[1..]) else 0;
    if n + f == 0 then None
    else
      var magnitude := DigitsValue(body[..n]) as real + if f == 0 then 0.0 else Fraction(rest[1..][..f]);
      Some(if sign < 0 then -magnitude else magnitude)
  }

  /** The value of the digits after a decimal point: ".25" is 0.25. */
  function Fraction(digits: string): (r: real)
    requires AllDigits(digits)
    ensures 0.0 <= r <= 1.0
  {
    if digits == [] then 0.0
    else ((digits[0] as int - '0' as int) as real + Fraction(digits[1..])) / 10.0
  }

  /** The decimal text of an integer: no leading blank, its sign, then all digits of its magnitude. */
  lemma IntToStringParts(i: int)
    ensures var s := IntToString(i);
            var d := NatToString(if i < 0 then -i else i);
            && TrimStart(s) == s
            && SignOf(s) == (if i < 0 then (1, -1) else (0, 1))
            && s[SignOf(s).0..] == d
            && LeadingDigits(d) == |d|
            && d[..|d|] == d && d[|d|..] == []
            && DigitsValue(d) == if i < 0 then -i else i
  {
    var s := IntToString(i);
    var d := NatToString(if i < 0 then -i else i);
    DigitsValueOfNatToString(if i < 0 then -i else i);
    assert !IsWhite(s[0]);
    LeadingDigitsAll(d);
  }

  /** Reading back the decimal text of an integer as an integer gives it back. */
  lemma ParseIntOfIntToString(i: int)
    ensures ParseInt(IntToString(i)) == Some(i)
  {
    IntToStringParts(i);
  }

  /** Reading back the decimal text of an integer as a number gives it back. */
  lemma ParseFloatOfIntToString(i: int)
    ensures ParseFloat(IntToString(i)) == Some(i as real)
  {
    IntToStringParts(i);
  }

  lemma {:induction false} LeadingDigitsAll(s: string)
    requires AllDigits(s)
    ensures LeadingDigits(s) == |s|
  {
    if s != [] {
      LeadingDigitsAll(s[1..]);
    }
  }

  /** `String.prototype.split` on one separator character. */
  function Split(s: string, sep: char): (parts: seq<string>)
    ensures |parts| >= 1
    ensures forall i, k :: 0 <= i < |parts| && 0 <= k < |parts[i]| ==> parts[i][k] != sep
  {
    if s == [] then [""]
    else
      var rest := Split(s[1..], sep);
      if s[0] == sep then [""] + rest
      else [[s[0]] + rest[0]] + rest[1..]
  }

  /** Joining the parts with the separator gives the string back. */
  lemma {:induction false} JoinSplit(s: string, sep: char)
    ensures Join(Split(s, sep), [sep]) == s
  {
    if s != [] {
      var rest := Split(s[1..], sep);
      JoinSplit(s[1..], sep);
      if s[0] == sep {
        assert ([""] + rest)[1..] == rest;
      } else if |rest| > 1 {
        var parts := [[s[0]] + rest[0]] + rest[1..];
        assert parts[1..] == rest[1..];
        assert s == [s[0]] + s[1..];
      } else {
        assert s == [s[0]] + s[1..];
      }
    }
  }

  // ---------------------------------------------------------------------
  // Cleaning one point of interest
  // ---------------------------------------------------------------------

  /** A point of interest as the place search returns it; absent fields are `None`. */
  datatype Poi = Poi(
    name: Option<string>,
    location: Option<string>,     // "longitude,latitude"
    address: Option<string>,
    kind: Option<string>,         // `type`
    tel: Option<string>,
    rating: Option<string>,       // `biz_ext.rating`
    distance: Option<string>,
    id: Option<string>)

  /** A record of the merchants collection. */
  datatype MerchantRecord = MerchantRecord(
    name: string,
    address: string,
    longitude: real,
    latitude: real,
    category: string,
    phone: string,
    rating: real,
    distance: int,
    updateTime: int,
    source: string,
    amapId: string)

  predicate Truthy(o: Option<string>) {
    o.Some? && o.value != ""
  }

  /** `String(x || '').trim()`. */
  function Cleaned(o: Option<string>): string {
    Trim(o.GetOr(""))
  }

  /** `parseFloat(x || '0') || 0`: 0 for a missing or unparsable field, else the parsed number. */
  function NumberOr0(o: Option<string>): (r: real)
    ensures !Truthy(o) ==> r == 0.0
    ensures Truthy(o) && ParseFloat(o.value).None? ==> r == 0.0
    ensures Truthy(o) && ParseFloat(o.value).Some? ==> r == ParseFloat(o.value).value
  {
    var p := ParseFloat(if Truthy(o) then o.value else "0");
    ZeroTextIsZero();
    if p.Some? then p.value else 0.0
  }

  /** `parseInt(x || '0') || 0`: 0 for a missing or unparsable field, else the parsed integer. */
  function IntegerOr0(o: Option<string>): (r: int)
    ensures !Truthy(o) ==> r == 0
    ensures Truthy(o) && ParseInt(o.value).None? ==> r == 0
    ensures Truthy(o) && ParseInt(o.value).Some? ==> r == ParseInt(o.value).value
  {
    var p := ParseInt(if Truthy(o) then o.value else "0");
    ZeroTextIsZero();
    if p.Some? then p.value else 0
  }

  /** The fallback text '0' parses to zero either way. */
  lemma ZeroTextIsZero()
    ensures ParseFloat("0") == Some(0.0) && ParseInt("0") == Some(0)
  {
    assert IntToString(0) == "0";
    ParseFloatOfIntToString(0);
    ParseIntOfIntToString(0);
  }

  predicate InRange(longitude: real, latitude: real) {
    -180.0 <= longitude <= 180.0 && -90.0 <= latitude <= 90.0
  }

  /** What the collection holds: valid coordinates, a name and a provider id. */
  predicate ValidRecord(m: MerchantRecord) {
    InRange(m.longitude, m.latitude) && m.name != "" && m.amapId != "" && m.source == "amap"
  }

  /**
   * The coordinates a location text gives, "longitude,latitude", when it has
   * exactly two parts that both parse and lie in range.
   */
  function Coordinates(location: string): (r: Option<(real, real)>)
    ensures r.Some? <==>
              var parts := Split(location, ',');
              && |parts| == 2
              && ParseFloat(parts[0]).Some? && ParseFloat(parts[1]).Some?
              && InRange(ParseFloat(parts[0]).value, ParseFloat(parts[1]).value)
    ensures r.Some? ==> r.value == (ParseFloat(Split(location, ',')[0]).value, ParseFloat(Split(location, ',')[1]).value)
  {
    var parts := Split(location, ',');
    if |parts| != 2 then None
    else
      var lng := ParseFloat(parts[0]);
      var lat := ParseFloat(parts[1]);
      if lng.None? || lat.None? || !InRange(lng.value, lat.value) then None
      else Some((lng.value, lat.value))
  }

  /** The cleaned record of a point of interest, or `None` when the loop skips it. */
  function Clean(poi: Poi, now: int): (r: Option<MerchantRecord>)
    ensures r.Some? <==>
              && Truthy(poi.name) && Truthy(poi.location)
              && Coordinates(poi.location.value).Some?
              && Trim(poi.name.value) != "" && Cleaned(poi.id) != ""
    ensures r.Some? ==> ValidRecord(r.value)
    ensures r.Some? ==>
              var m := r.value;
              && (m.longitude, m.latitude) == Coordinates(poi.location.value).value
              && m.name == Trim(poi.name.value) && m.amapId == Cleaned(poi.id)
              && m.address == Cleaned(poi.address) && m.category == Cleaned(poi.kind) && m.phone == Cleaned(poi.tel)
              && m.rating == NumberOr0(poi.rating) && m.distance == IntegerOr0(poi.distance)
              && m.updateTime == now && m.source == "amap"
  {
    if !Truthy(poi.name) || !Truthy(poi.location) then None
    else
      match Coordinates(poi.location.value)
      case None => None
      case Some((lng, lat)) =>
        var rec := MerchantRecord(
          Cleaned(poi.name), Cleaned(poi.address), lng, lat, Cleaned(poi.kind), Cleaned(poi.tel),
          NumberOr0(poi.rating), IntegerOr0(poi.distance), now, "amap", Cleaned(poi.id));
        if rec.name == "" || rec.amapId == "" then None else Some(rec)
  }

  /** A point without a name or without a location is skipped. */
  lemma CleanSkipsIncomplete(poi: Poi, now: int)
    requires !Truthy(poi.name) || !Truthy(poi.location)
    ensures Clean(poi, now).None?
  {
  }

  /** A text with no separator is one part. */
  lemma {:induction false} SplitNone(s: string, sep: char)
    requires sep !in s
    ensures Split(s, sep) == [s]
  {
    if s != [] {
      SplitNone(s[1..], sep);
      assert s == [s[0]] + s[1..];
    }
  }

  /** Two separator-free texts joined by the separator split back into the two. */
  lemma {:induction false} SplitTwo(a: string, b: string, sep: char)
    requires sep !in a && sep !in b
    ensures Split(a + [sep] + b, sep) == [a, b]
  {
    var s := a + [sep] + b;
    if a == [] {
      assert s[1..] == b;
      SplitNone(b, sep);
    } else {
      assert s[1..] == a[1..] + [sep] + b;
      SplitTwo(a[1..], b, sep);
      assert a == [a[0]] + a[1..];
    }
  }

  /** The decimal text of an integer holds no comma. */
  lemma IntToStringNoComma(i: int)
    ensures ',' !in IntToString(i)
  {
    var d := NatToString(if i < 0 then -i else i);
    assert forall k :: 0 <= k < |d| ==> d[k] != ',';
    if i < 0 {
      assert IntToString(i) == "-" + d;
    }
  }

  /**
   * Round trip: a point whose location is the decimal text of in-range
   * coordinates, with a non-blank name and id, is kept with those coordinates.
   */
  lemma CleanReadsCoordinates(poi: Poi, now: int, lng: int, lat: int)
    requires poi.location == Some(IntToString(lng) + "," + IntToString(lat))
    requires InRange(lng as real, lat as real)
    requires Truthy(poi.name) && Trim(poi.name.value) != "" && Cleaned(poi.id) != ""
    ensures Clean(poi, now).Some?
    ensures Clean(poi, now).value.longitude == lng as real && Clean(poi, now).value.latitude == lat as real
  {
    IntToStringParts(lng);
    IntToStringParts(lat);
    assert ',' !in IntToString(lng) && ',' !in IntToString(lat) by {
      IntToStringNoComma(lng);
      IntToStringNoComma(lat);
    }
    SplitTwo(IntToString(lng), IntToString(lat), ',');
    ParseFloatOfIntToString(lng);
    ParseFloatOfIntToString(lat);
  }

  // ---------------------------------------------------------------------
  // Insert-or-update by provider id
  // ---------------------------------------------------------------------

  predicate HasId(coll: seq<MerchantRecord>, amapId: string) {
    exists j :: 0 <= j < |coll| && coll[j].amapId == amapId
  }

  /** `where({ amapId }).update(...)`: every record with that id becomes the new one. */
  function ReplaceAll(coll: seq<MerchantRecord>, rec: MerchantRecord): (r: seq<MerchantRecord>)
    ensures |r| == |coll|
    ensures forall j :: 0 <= j < |r| ==> r[j] == if coll[j].amapId == rec.amapId then rec else coll[j]
  {
    seq(|coll|, j requires 0 <= j < |coll| => if coll[j].amapId == rec.amapId then rec else coll[j])
  }

  /** One cleaned record: skipped on a database error, else added (saved) or updated. */
  function Upsert(coll: seq<MerchantRecord>, rec: MerchantRecord, fails: bool): (r: (seq<MerchantRecord>, nat))
    ensures r.1 <= 1 && |r.0| == |coll| + r.1
    ensures fails ==> r == (coll, 0)
  {
    if fails then (coll, 0)
    else if HasId(coll, rec.amapId) then (ReplaceAll(coll, rec), 0)
    else (coll + [rec], 1)
  }

  /** The collection and saved count after the loop over `pois`. */
  function Ingest(coll: seq<MerchantRecord>, pois: seq<Poi>, failing: set<nat>, now: int): (r: (seq<MerchantRecord>, nat))
    ensures r.1 <= |pois|
    ensures |r.0| == |coll| + r.1
  {
    if pois == [] then (coll, 0)
    else Step(Ingest(coll, pois[..|pois| - 1], failing, now), Clean(pois[|pois| - 1], now), |pois| - 1 in failing)
  }

  /** One turn of the loop, after cleaning: a skipped point changes nothing, a kept one is upserted. */
  function Step(acc: (seq<MerchantRecord>, nat), rec: Option<MerchantRecord>, fails: bool): (r: (seq<MerchantRecord>, nat))
    ensures acc.1 <= r.1 <= acc.1 + 1
    ensures |r.0| == |acc.0| + (r.1 - acc.1)
    ensures rec.None? ==> r == acc
  {
    match rec
    case None => acc
    case Some(m) =>
      var upserted := Upsert(acc.0, m, fails);
      (upserted.0, acc.1 + upserted.1)
  }

  predicate UniqueIds(coll: seq<MerchantRecord>) {
    forall i, j :: 0 <= i < j < |coll| ==> coll[i].amapId != coll[j].amapId
  }

  predicate AllValid(coll: seq<MerchantRecord>) {
    forall j :: 0 <= j < |coll| ==> ValidRecord(coll[j])
  }

  /** An upsert never creates a second record with the same provider id, nor an invalid record. */
  lemma UpsertKeepsInvariant(coll: seq<MerchantRecord>, rec: MerchantRecord, fails: bool)
    requires UniqueIds(coll) && AllValid(coll) && ValidRecord(rec)
    ensures UniqueIds(Upsert(coll, rec, fails).0) && AllValid(Upsert(coll, rec, fails).0)
  {
    if !fails && !HasId(coll, rec.amapId) {
      var r := coll + [rec];
      forall i, j | 0 <= i < j < |r|
        ensures r[i].amapId != r[j].amapId
      {
        if j == |coll| {
          assert r[i] == coll[i];
        }
      }
    }
  }

  /** The ingestion keeps provider ids unique and every stored record valid. */
  lemma {:induction false} IngestKeepsInvariant(coll: seq<MerchantRecord>, pois: seq<Poi>, failing: set<nat>, now: int)
    requires UniqueIds(coll) && AllValid(coll)
    ensures UniqueIds(Ingest(coll, pois, failing, now).0) && AllValid(Ingest(coll, pois, failing, now).0)
  {
    if pois != [] {
      IngestKeepsInvariant(coll, pois[..|pois| - 1], failing, now);
      var c := Ingest(coll, pois[..|pois| - 1], failing, now).0;
      var rec := Clean(pois[|pois| - 1], now);
      if rec.Some? {
        UpsertKeepsInvariant(c, rec.value, |pois| - 1 in failing);
      }
    }
  }

  /** A later turn of the loop never removes a provider id from the collection. */
  lemma StepKeepsId(acc: (seq<MerchantRecord>, nat), rec: Option<MerchantRecord>, fails: bool, id: string)
    requires HasId(acc.0, id)
    ensures HasId(Step(acc, rec, fails).0, id)
  {
    if rec.Some? && !fails {
      var j :| 0 <= j < |acc.0| && acc.0[j].amapId == id;
      assert Step(acc, rec, fails).0[j].amapId == id;
    }
  }

  /** A kept record whose save succeeds is stored under its provider id. */
  lemma StepStores(acc: (seq<MerchantRecord>, nat), m: MerchantRecord)
    ensures HasId(Step(acc, Some(m), false).0, m.amapId)
  {
    var c := acc.0;
    if HasId(c, m.amapId) {
      var j :| 0 <= j < |c| && c[j].amapId == m.amapId;
      assert Step(acc, Some(m), false).0[j] == m;
    } else {
      assert Step(acc, Some(m), false).0[|c|] == m;
    }
  }

  /** After the run every cleaned point whose save succeeded is stored under its provider id. */
  lemma {:induction false} IngestStoresEachPoint(coll: seq<MerchantRecord>, pois: seq<Poi>, failing: set<nat>, now: int, k: nat)
    requires k < |pois| && k !in failing && Clean(pois[k], now).Some?
    ensures HasId(Ingest(coll, pois, failing, now).0, Clean(pois[k], now).value.amapId)
  {
    var front := pois[..|pois| - 1];
    var acc := Ingest(coll, front, failing, now);
    var last := Clean(pois[|pois| - 1], now);
    assert Ingest(coll, pois, failing, now) == Step(acc, last, |pois| - 1 in failing);
    if k < |pois| - 1 {
      assert front[k] == pois[k];
      IngestStoresEachPoint(coll, front, failing, now, k);
      StepKeepsId(acc, last, |pois| - 1 in failing, Clean(pois[k], now).value.amapId);
    } else {
      StepStores(acc, last.value);
    }
  }

  // ---------------------------------------------------------------------
  // The cloud function
  // ---------------------------------------------------------------------

  /** The parsed place-search reply. */
  datatype PlaceReply = PlaceReply(status: string, info: string, pois: Option<seq<Poi>>)

  datatype Outcome =
    | Success(total: nat, saved: nat, preview: seq<Poi>)
    | Failure(error: string)

  /** At most this many points are echoed back. */
  const PREVIEW_SIZE: nat := 10

  /**
   * The body of the loop once a point is cleaned: a skipped point changes
   * nothing; a kept one is looked up by id, then every match is updated or
   * the record is added and counted; a database error (`fails`) skips it.
   */
  method SaveMerchant(coll: seq<MerchantRecord>, savedCount: nat, rec: Option<MerchantRecord>, fails: bool)
    returns (next: seq<MerchantRecord>, count: nat)
    ensures (next, count) == Step((coll, savedCount), rec, fails)
  {
    next, count := coll, savedCount;
    if rec.None? || fails {
      return;
    }
    if HasId(coll, rec.value.amapId) {
      next := ReplaceAll(coll, rec.value);
    } else {
      next, count := coll + [rec.value], savedCount + 1;
    }
  }

  /** The `for` loop of `exports.main`: each point is cleaned and, when kept, saved. */
  method IngestAll(coll: seq<MerchantRecord>, pois: seq<Poi>, failing: set<nat>, now: int)
    returns (stored: seq<MerchantRecord>, savedCount: nat)
    ensures (stored, savedCount) == Ingest(coll, pois, failing, now)
  {
    stored := coll;
    savedCount := 0;
    var i := 0;
    while i < |pois|
      invariant 0 <= i <= |pois|
      invariant (stored, savedCount) == Ingest(coll, pois[..i], failing, now)
    {
      assert pois[..i + 1][..i] == pois[..i];
      var rec := Clean(pois[i], now);
      stored, savedCount := SaveMerchant(stored, savedCount, rec, i in failing);
      i := i + 1;
    }
    assert pois[..i] == pois;
  }

  /** `exports.main`: status check, then the cleaning and upsert loop, then the summary. */
  method Run(coll: seq<MerchantRecord>, response: Result<PlaceReply>, failing: set<nat>, now: int)
    returns (outcome: Outcome, stored: seq<MerchantRecord>)
    ensures response.Err? ==> outcome == Failure(response.error) && stored == coll
    ensures response.Ok? && response.value.status != "1" ==>
              outcome == Failure("高德API错误: " + response.value.info) && stored == coll
    ensures response.Ok? && response.value.status == "1" ==>
              var pois := response.value.pois.GetOr([]);
              && stored == Ingest(coll, pois, failing, now).0
              && outcome == Success(|pois|, Ingest(coll, pois, failing, now).1, Take(pois, PREVIEW_SIZE))
    ensures outcome.Success? ==> outcome.saved <= outcome.total && |outcome.preview| <= PREVIEW_SIZE
  {
    if response.Err? {
      return Failure(response.error), coll;
    }
    if response.value.status != "1" {
      return Failure("高德API错误: " + response.value.info), coll;
    }
    var pois := response.value.pois.GetOr([]);
    var savedCount;
    stored, savedCount := IngestAll(coll, pois, failing, now);
    outcome := Success(|pois|, savedCount, Take(pois, PREVIEW_SIZE));
  }
}
