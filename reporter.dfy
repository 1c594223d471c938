/** The statistics reporter for one peer-to-peer connection: it indexes a snapshot of
    statistics records, joins each candidate pair to its channel, and flattens records into
    plain key/value objects ready for JSON. */
module Reporter {

  import opened Wrappers
  import opened Js

  /** One statistics record (a browser `StatsReport`): its id, its type, an optional timestamp
      in milliseconds since the epoch, the stat names it lists and the value of each stat. */
  datatype Record = Record(
    id: string,
    kind: string,
    timestamp: Option<int>,
    names: seq<string>,
    stats: map<string, Value>)

  /** `report.stat(name)`: the stat's value, `undefined` when the record has none. */
  function Stat(r: Record, name: string): Value {
    if name in r.stats then r.stats[name] else Undefined
  }

  const CandidatePair := "googCandidatePair"
  const ActiveConnection := "googActiveConnection"
  const ChannelId := "googChannelId"

  /** The options object the reporter is built with: the target endpoint and the room. */
  datatype Options = Options(id: string, room: Option<string>)

  // ---------------------------------------------------------------------------
  // Connection key
  // ---------------------------------------------------------------------------

  /** The key of the connection between two endpoints: the smaller id, a colon, the larger. */
  function ConnectionKey(source: string, target: string): (key: string)
    ensures (key == source + ":" + target && !Less(target, source))
         || (key == target + ":" + source && !Less(source, target))
  {
    LessTrichotomy(source, target);
    if Less(source, target) then source + ":" + target else target + ":" + source
  }

  /** Both peers of a connection compute the same key, whichever of them is the source. */
  lemma ConnectionKeySymmetric(a: string, b: string)
    ensures ConnectionKey(a, b) == ConnectionKey(b, a)
  {
    LessTrichotomy(a, b);
  }

  // ---------------------------------------------------------------------------
  // First-wins lookup
  // ---------------------------------------------------------------------------

  /** What a lookup compares: the record's type, or its id (with `===` on a value). */
  datatype Criterion = OfType(kind: string) | WithId(id: Value)

  predicate Matches(r: Record, c: Criterion) {
    match c
    case OfType(t) => r.kind == t
    case WithId(x) => x == Str(r.id)
  }

  /** The least index of a matching record, or `|rs|` when none matches. */
  function FirstMatch(rs: seq<Record>, c: Criterion): (k: nat)
    ensures k <= |rs|
    ensures forall j :: 0 <= j < k ==> !Matches(rs[j], c)
    ensures k < |rs| ==> Matches(rs[k], c)
  {
    if rs == [] || Matches(rs[0], c) then 0 else 1 + FirstMatch(rs[1..], c)
  }

  /** The record `getReport`/`getReportById` return: null for an absent or empty collection,
      otherwise the earliest matching record, or null when none matches. */
  function Lookup(reports: Option<seq<Record>>, c: Criterion): (r: Option<Record>)
    ensures reports.None? ==> r.None?
    ensures reports.Some? ==>
      (r.Some? <==> exists i :: 0 <= i < |reports.value| && Matches(reports.value[i], c))
    ensures r.Some? ==> exists i :: (0 <= i < |reports.value| && reports.value[i] == r.value
      && Matches(r.value, c) && forall j :: 0 <= j < i ==> !Matches(reports.value[j], c))
  {
    if reports.None? || |reports.value| == 0 then None
    else
      var k := FirstMatch(reports.value, c);
      if k < |reports.value| then Some(reports.value[k]) else None
  }

  // ---------------------------------------------------------------------------
  // Filtering by type
  // ---------------------------------------------------------------------------

  /** Which records a filter keeps: those whose type is in a list, or those whose type is not. */
  datatype Selector = TypeIn(kinds: seq<string>) | TypeNotIn(kinds: seq<string>)

  predicate Keeps(r: Record, s: Selector) {
    match s
    case TypeIn(ks) => r.kind in ks
    case TypeNotIn(ks) => r.kind !in ks
  }

  /** The kept records, in collection order, duplicates included. */
  function Select(rs: seq<Record>, s: Selector): (kept: seq<Record>)
    ensures |kept| <= |rs|
    ensures forall i :: 0 <= i < |kept| ==> Keeps(kept[i], s)
  {
    if rs == [] then []
    else Select(rs[..|rs| - 1], s) + (if Keeps(rs[|rs| - 1], s) then [rs[|rs| - 1]] else [])
  }

  /** `kept` is `rs` at the strictly increasing positions `idx`. */
  ghost predicate EmbeddedAt(rs: seq<Record>, kept: seq<Record>, idx: seq<int>) {
    && |idx| == |kept|
    && (forall i :: 0 <= i < |idx| ==> 0 <= idx[i] < |rs| && rs[idx[i]] == kept[i])
    && (forall i :: 0 < i < |idx| ==> idx[i - 1] < idx[i])
  }

  /** The positions `idx` are exactly those of the records the selector keeps. */
  ghost predicate CoversKept(rs: seq<Record>, s: Selector, idx: seq<int>) {
    forall j :: 0 <= j < |rs| ==> (j in idx <==> Keeps(rs[j], s))
  }

  /** The positions of the kept records, in increasing order. */
  ghost function SelectIndices(rs: seq<Record>, s: Selector): (idx: seq<int>)
    ensures |idx| <= |rs|
    ensures forall i :: 0 <= i < |idx| ==> 0 <= idx[i] < |rs|
  {
    if rs == [] then []
    else SelectIndices(rs[..|rs| - 1], s) + (if Keeps(rs[|rs| - 1], s) then [|rs| - 1] else [])
  }

  /** The filtered list is the collection at strictly increasing positions. */
  lemma {:induction false} SelectEmbedded(rs: seq<Record>, s: Selector)
    ensures EmbeddedAt(rs, Select(rs, s), SelectIndices(rs, s))
  {
    if rs != [] {
      var n := |rs| - 1;
      var init := rs[..n];
      SelectEmbedded(init, s);
      var idx, kept := SelectIndices(init, s), Select(init, s);
      var idx', kept' := SelectIndices(rs, s), Select(rs, s);
      assert idx' == idx + (if Keeps(rs[n], s) then [n] else []);
      assert kept' == kept + (if Keeps(rs[n], s) then [rs[n]] else []);
      forall i | 0 <= i < |idx'|
        ensures rs[idx'[i]] == kept'[i]
      {
        if i < |idx| {
          assert rs[idx[i]] == init[idx[i]];
        }
      }
    }
  }

  /** The positions of the filtered list are exactly the positions of the kept records. */
  lemma {:induction false} SelectCovers(rs: seq<Record>, s: Selector)
    ensures CoversKept(rs, s, SelectIndices(rs, s))
  {
    if rs != [] {
      var n := |rs| - 1;
      var init := rs[..n];
      SelectCovers(init, s);
      var idx := SelectIndices(init, s);
      var idx' := SelectIndices(rs, s);
      assert idx' == idx + (if Keeps(rs[n], s) then [n] else []);
      forall j | 0 <= j < |rs|
        ensures j in idx' <==> Keeps(rs[j], s)
      {
        if j < n {
          assert rs[j] == init[j];
          assert j in idx' <==> j in idx;
        } else {
          assert j !in idx;
        }
      }
    }
  }

  /** The filter keeps exactly the matching records: an order-preserving subsequence of the
      collection that takes every matching position and no other. */
  lemma SelectExactly(rs: seq<Record>, s: Selector)
    ensures exists idx :: EmbeddedAt(rs, Select(rs, s), idx) && CoversKept(rs, s, idx)
  {
    SelectEmbedded(rs, s);
    SelectCovers(rs, s);
    var idx := SelectIndices(rs, s);
    assert EmbeddedAt(rs, Select(rs, s), idx) && CoversKept(rs, s, idx);
  }

  /** A record is in the filtered list exactly when it is in the collection and kept; the list
      is empty exactly when nothing matches. */
  lemma SelectMembers(rs: seq<Record>, s: Selector)
    ensures forall x :: x in Select(rs, s) <==> x in rs && Keeps(x, s)
    ensures Select(rs, s) == [] <==> forall i :: 0 <= i < |rs| ==> !Keeps(rs[i], s)
  {
    var kept := Select(rs, s);
    forall x | x in rs && Keeps(x, s)
      ensures x in kept
    {
      var j :| 0 <= j < |rs| && rs[j] == x;
      var idx := SelectIndices(rs, s);
      SelectEmbedded(rs, s);
      SelectCovers(rs, s);
      assert j in idx;
      var i :| 0 <= i < |idx| && idx[i] == j;
      assert kept[i] == x;
    }
    forall x | x in kept
      ensures x in rs
    {
      var i :| 0 <= i < |kept| && kept[i] == x;
      SelectEmbedded(rs, s);
      assert rs[SelectIndices(rs, s)[i]] == x;
    }
  }

  /** Filtering a collection with a record in front: that record, when kept, then the
      filtered rest. */
  lemma {:induction false} SelectCons(x: Record, rs: seq<Record>, s: Selector)
    ensures Select([x] + rs, s) == (if Keeps(x, s) then [x] else []) + Select(rs, s)
    decreases |rs|
  {
    if rs != [] {
      var n := |rs| - 1;
      assert ([x] + rs)[..|rs|] == [x] + rs[..n];
      assert ([x] + rs)[|rs|] == rs[n];
      SelectCons(x, rs[..n], s);
    }
  }

  /** The first record that matches a type is the first record the type filter keeps; there is
      none exactly when the filter keeps nothing. */
  lemma {:induction false} FirstMatchHeadsSelect(rs: seq<Record>, t: string)
    ensures var kept := Select(rs, TypeIn([t]));
      var k := FirstMatch(rs, OfType(t));
      && (kept == [] <==> k == |rs|)
      && (k < |rs| ==> kept[0] == rs[k])
  {
    if rs != [] {
      SelectCons(rs[0], rs[1..], TypeIn([t]));
      assert [rs[0]] + rs[1..] == rs;
      FirstMatchHeadsSelect(rs[1..], t);
    }
  }

  /** `getReport(t)` is the head of `getReportsByType(t)`, and null when that list is empty. */
  lemma LookupIsHeadOfSelect(rs: seq<Record>, t: string)
    ensures var kept := Select(rs, TypeIn([t]));
      Lookup(Some(rs), OfType(t)) == if kept == [] then None else Some(kept[0])
  {
    FirstMatchHeadsSelect(rs, t);
  }

  // ---------------------------------------------------------------------------
  // Flattening a record
  // ---------------------------------------------------------------------------

  /** The value `reportToObject` stores under `key`: `parseInt` of the stat for the field names
      in `asInt`, the stat itself otherwise. */
  function Coerced(r: Record, key: string, asInt: set<string>): Value {
    if key in asInt then ParseInt(Stat(r, key)) else Stat(r, key)
  }

  /** The plain object a record flattens to. */
  function Flattened(r: Record, asInt: set<string>): (obj: map<string, Value>)
    ensures obj.Keys == set k | k in r.names
    ensures forall k :: k in obj && k in asInt ==> obj[k] == ParseInt(Stat(r, k)) && (obj[k].Num? || obj[k].NaN?)
    ensures forall k :: k in obj && k !in asInt ==> obj[k] == Stat(r, k)
  {
    map k | k in r.names :: Coerced(r, k, asInt)
  }

  /** `reportToObject(report)`: null for null; otherwise an object with one key per stat name,
      filled key by key, with the integer fields overwritten by their `parseInt`. */
  method ReportToObject(report: Option<Record>, asInt: set<string>) returns (obj: Option<map<string, Value>>)
    ensures report.None? ==> obj.None?
    ensures report.Some? ==> obj == Some(Flattened(report.value, asInt))
  {
    if report.None? {
      return None;
    }
    var r := report.value;
    var names := r.names;
    var result: map<string, Value> := map[];
    for i := 0 to |names|
      invariant forall k :: k in result <==> k in names[..i]
      invariant forall k :: k in result ==> result[k] == Coerced(r, k, asInt)
    {
      var key := names[i];
      assert names[..i + 1] == names[..i] + [key];
      result := result[key := Stat(r, key)];
      if key in asInt {
        result := result[key := ParseInt(result[key])];
      }
    }
    assert names[..|names|] == names;
    var flat := Flattened(r, asInt);
    assert forall k :: k in result <==> k in flat;
    assert forall k :: k in result ==> result[k] == flat[k];
    assert result == flat;
    return Some(result);
  }

  // ---------------------------------------------------------------------------
  // Serialised shapes
  // ---------------------------------------------------------------------------

  datatype Endpoint = Endpoint(id: string)

  /** One entry of `reports` in the serialised connection. */
  datatype ReportJson = ReportJson(id: string, kind: string, timestamp: int, data: map<string, Value>)

  /** What `toJSON` returns: an empty array when there is no collection, otherwise the
      connection object. `mesh` is the room, `None` when the room is undefined. */
  datatype ConnectionJson =
    | EmptyArray
    | Snapshot(id: string, connection: string, source: Endpoint, target: Endpoint,
               mesh: Option<string>, reports: seq<ReportJson>, timestamp: int)

  /** What `ChannelReport.toJSON` returns. `room` is the unset `room` property of a channel
      report; `connection` and `timestamp` are absent when no candidate pair is attached. */
  datatype ChannelJson = ChannelJson(
    id: string,
    room: Value,
    active: Value,
    connection: Option<map<string, Value>>,
    timestamp: Option<int>)

  /** The entry `toJSON` writes for one record, with `now` standing for the clock. */
  function EntryFor(r: Record, now: int, asInt: set<string>): ReportJson {
    ReportJson(r.id, r.kind, r.timestamp.GetOr(now), Flattened(r, asInt))
  }

  // ---------------------------------------------------------------------------
  // Channel reports
  // ---------------------------------------------------------------------------

  /** A channel record bundled with the candidate pair that refers to it. */
  datatype ChannelReport = ChannelReport(channel: Option<Record>, connection: Option<Record>) {

    /** `connection && connection.stat('googActiveConnection')`: null without a candidate pair,
        otherwise the raw stat value. */
    function IsActive(): (v: Value)
      ensures connection.None? ==> v == Null
      ensures Truthy(v) <==> connection.Some? && Truthy(Stat(connection.value, ActiveConnection))
    {
      match connection
      case None => Null
      case Some(pair) => Stat(pair, ActiveConnection)
    }

    /** The serialised channel report: the channel's id or "", the never-set room, the activity,
        and, when a candidate pair is attached, its flattened stats and its timestamp (the clock,
        `now`, when it has none). */
    function ToJson(now: int, asInt: set<string>): (out: ChannelJson)
      ensures out.id == if channel.Some? then channel.value.id else ""
      ensures out.room == Undefined
      ensures out.active == IsActive()
      ensures out.connection.Some? <==> connection.Some?
      ensures out.timestamp.Some? <==> connection.Some?
      ensures connection.Some? ==>
        && out.connection == Some(Flattened(connection.value, asInt))
        && out.timestamp.value == connection.value.timestamp.GetOr(now)
    {
      var id := if channel.Some? then channel.value.id else "";
      match connection
      case None => ChannelJson(id, Undefined, IsActive(), None, None)
      case Some(pair) =>
        ChannelJson(id, Undefined, IsActive(), Some(Flattened(pair, asInt)), Some(pair.timestamp.GetOr(now)))
    }
  }

  // ---------------------------------------------------------------------------
  // The reporter
  // ---------------------------------------------------------------------------

  /** A reporter over one statistics snapshot. Its fields are set by the constructor and never
      change; `reports` is `None` when no collection was given. */
  class Reporter {
    const source: string
    const target: string
    const room: Option<string>
    const reports: Option<seq<Record>>
    const id: string
    const connectionId: string

    /** `new Reporter(sourceId, opts, reports)`; `instanceId` is the fresh identifier the
        constructor draws. */
    constructor (sourceId: string, opts: Options, reports: Option<seq<Record>>, instanceId: string)
      ensures source == sourceId && target == opts.id && room == opts.room
      ensures this.reports == reports && id == instanceId
      ensures connectionId == ConnectionKey(sourceId, opts.id)
    {
      source := sourceId;
      target := opts.id;
      room := opts.room;
      this.reports := reports;
      id := instanceId;
      connectionId := ConnectionKey(sourceId, opts.id);
    }

    /** `isActive()`: false without a collection; otherwise the `googActiveConnection` stat of
        the first candidate pair, or null when there is none (an empty collection included). */
    function IsActive(): (v: Value)
      ensures reports.None? ==> v == Bool(false)
      ensures reports.Some? && (forall i :: 0 <= i < |reports.value| ==> reports.value[i].kind != CandidatePair)
        ==> v == Null
      ensures reports.Some? ==>
        (Truthy(v) <==> exists i :: (0 <= i < |reports.value| && reports.value[i].kind == CandidatePair
          && (forall j :: 0 <= j < i ==> reports.value[j].kind != CandidatePair)
          && Truthy(Stat(reports.value[i], ActiveConnection))))
    {
      if reports.None? then Bool(false)
      else
        match Lookup(reports, OfType(CandidatePair))
        case None => Null
        case Some(report) => Stat(report, ActiveConnection)
    }

    /** `getReport(reportType)`: the first record of that type. */
    method GetReport(reportType: string) returns (r: Option<Record>)
      ensures r == Lookup(reports, OfType(reportType))
    {
      if reports.None? || |reports.value| == 0 {
        return None;
      }
      var rs := reports.value;
      for i := 0 to |rs|
        invariant forall j :: 0 <= j < i ==> rs[j].kind != reportType
      {
        if rs[i].kind == reportType {
          return Some(rs[i]);
        }
      }
      return None;
    }

    /** `getReportById(reportId)`: the first record whose id is `=== reportId`. */
    method GetReportById(reportId: Value) returns (r: Option<Record>)
      ensures r == Lookup(reports, WithId(reportId))
    {
      if reports.None? || |reports.value| == 0 {
        return None;
      }
      var rs := reports.value;
      for i := 0 to |rs|
        invariant forall j :: 0 <= j < i ==> reportId != Str(rs[j].id)
      {
        if reportId == Str(rs[i].id) {
          return Some(rs[i]);
        }
      }
      return None;
    }

    /** `getReportsByTypes(reportTypes)`: null for an absent or empty collection, otherwise the
        records whose type is in the list, in collection order. */
    method GetReportsByTypes(reportTypes: seq<string>) returns (r: Option<seq<Record>>)
      ensures reports.None? || |reports.value| == 0 ==> r.None?
      ensures reports.Some? && |reports.value| > 0 ==> r == Some(Select(reports.value, TypeIn(reportTypes)))
    {
      if reports.None? || |reports.value| == 0 {
        return None;
      }
      var rs := reports.value;
      var result: seq<Record> := [];
      for i := 0 to |rs|
        invariant result == Select(rs[..i], TypeIn(reportTypes))
      {
        assert rs[..i + 1][..i] == rs[..i];
        if rs[i].kind in reportTypes {
          result := result + [rs[i]];
        }
      }
      assert rs[..|rs|] == rs;
      return Some(result);
    }

    /** `getReportsByType(reportType)`, as `getReportsByTypes([reportType])`. */
    method GetReportsByType(reportType: string) returns (r: Option<seq<Record>>)
      ensures reports.None? || |reports.value| == 0 ==> r.None?
      ensures reports.Some? && |reports.value| > 0 ==> r == Some(Select(reports.value, TypeIn([reportType])))
    {
      r := GetReportsByTypes([reportType]);
    }

    /** `getChannelReports()`, with the `ths` typo corrected: one channel report per candidate
        pair, in collection order, whose channel is the record the pair's `googChannelId` names
        (null when there is none). On an absent or empty collection `getReportsByType` gives
        null, and reading its `length` throws a TypeError. */
    method GetChannelReports() returns (c: Completion<seq<ChannelReport>>)
      ensures c.Threw? <==> reports.None? || reports.value == []
      ensures c.Threw? ==> c.error.TypeError?
      ensures reports.Some? && reports.value != [] ==>
        var pairs := Select(reports.value, TypeIn([CandidatePair]));
        && c.Normal?
        && |c.value| == |pairs|
        && forall i :: 0 <= i < |pairs| ==>
             c.value[i] == ChannelReport(Lookup(reports, WithId(Stat(pairs[i], ChannelId))), Some(pairs[i]))
    {
      var candidatePairs := GetReportsByType(CandidatePair);
      if candidatePairs.None? {
        // `candidatePairs.length` on null
        return Threw(TypeError("Cannot read properties of null (reading 'length')"));
      }
      var pairs := candidatePairs.value;
      var channelReports := [];
      for i := 0 to |pairs|
        invariant |channelReports| == i
        invariant forall k :: 0 <= k < i ==>
          channelReports[k] == ChannelReport(Lookup(reports, WithId(Stat(pairs[k], ChannelId))), Some(pairs[k]))
      {
        var cdp := pairs[i];
        var channelId := Stat(cdp, ChannelId);
        var channelStats := GetReportById(channelId);
        channelReports := channelReports + [ChannelReport(channelStats, Some(cdp))];
      }
      return Normal(channelReports);
    }

    /** `toJSON(exclude)`: an empty array without a collection; otherwise the connection object
        with one entry per record whose type is not excluded, in collection order. `now` stands
        for the clock. */
    method ToJson(exclude: Option<seq<string>>, now: int, asInt: set<string>) returns (out: ConnectionJson)
      ensures reports.None? ==> out == EmptyArray
      ensures reports.Some? ==>
        && out.Snapshot?
        && out.id == id && out.connection == connectionId
        && out.source == Endpoint(source) && out.target == Endpoint(target)
        && out.mesh == room && out.timestamp == now
      ensures reports.Some? ==>
        var kept := Select(reports.value, TypeNotIn(exclude.GetOr([])));
        && |out.reports| == |kept|
        && forall i :: 0 <= i < |kept| ==> out.reports[i] == EntryFor(kept[i], now, asInt)
    {
      if reports.None? {
        return EmptyArray;
      }
      var rs := reports.value;
      var excluded := exclude.GetOr([]);
      var result: seq<ReportJson> := [];
      for i := 0 to |rs|
        invariant var kept := Select(rs[..i], TypeNotIn(excluded));
          && |result| == |kept|
          && forall k :: 0 <= k < |kept| ==> result[k] == EntryFor(kept[k], now, asInt)
      {
        assert rs[..i + 1][..i] == rs[..i];
        var report := rs[i];
        if exclude.Some? && report.kind in exclude.value {
          continue;
        }
        var data := ReportToObject(Some(report), asInt);
        var output := ReportJson(report.id, report.kind, report.timestamp.GetOr(now), data.value);
        result := result + [output];
      }
      assert rs[..|rs|] == rs;
      return Snapshot(id, connectionId, Endpoint(source), Endpoint(target), room, result, now);
    }
  }

  /** The reporter is active exactly as the channel report of its first candidate pair is:
      both read the `googActiveConnection` stat of the same record. */
  lemma IsActiveAgreesWithFirstChannelReport(rep: Reporter)
    requires rep.reports.Some?
    ensures var pairs := Select(rep.reports.value, TypeIn([CandidatePair]));
      rep.IsActive() == if pairs == [] then Null else ChannelReport(None, Some(pairs[0])).IsActive()
  {
    LookupIsHeadOfSelect(rep.reports.value, CandidatePair);
  }

  /** The snapshot of the two scenarios below: a channel, then one active candidate pair that
      refers to it. */
  function ScenarioSnapshot(): seq<Record> {
    [Record("chan", "googComponent", None, [], map[]),
     Record("pair", CandidatePair, Some(7), [ActiveConnection, ChannelId],
       map[ActiveConnection := Str("true"), ChannelId := Str("chan")])]
  }

  /** With one active candidate pair the reporter is active, and the connection key does not
      depend on which endpoint reports. */
  method ActivePairScenario() {
    var rs := ScenarioSnapshot();
    var rep := new Reporter("b", Options("a", None), Some(rs), "instance");
    assert rep.connectionId == "a:b";
    assert rs[1..] == [rs[1]];
    assert FirstMatch(rs, OfType(CandidatePair)) == 1;
    assert Truthy(rep.IsActive());
  }

  /** The same snapshot gives one channel report, joined to the channel the pair names, active,
      and serialised with the channel's id and the pair's timestamp. */
  method ChannelJoinScenario() {
    var rs := ScenarioSnapshot();
    var rep := new Reporter("a", Options("b", None), Some(rs), "instance");
    assert rs[..1] == [rs[0]] && rs[..2] == rs;
    assert Select(rs, TypeIn([CandidatePair])) == [rs[1]];
    var c := rep.GetChannelReports();
    var channelReports := c.value;
    assert |channelReports| == 1;
    assert Lookup(Some(rs), WithId(Str("chan"))) == Some(rs[0]);
    var out := channelReports[0].ToJson(100, {});
    assert out.id == "chan" && out.active == Str("true") && out.timestamp == Some(7);
  }

  // ---------------------------------------------------------------------------
  // The source as written
  // ---------------------------------------------------------------------------

  /** `getReportsByType` as written: its body names `ths`, which no scope defines, so every call
      throws a ReferenceError before anything is looked up. */
  function GetReportsByTypeAsWritten(reports: Option<seq<Record>>, reportType: string): (c: Completion<Option<seq<Record>>>)
    ensures c == Threw(ReferenceError("ths"))
  {
    Threw(ReferenceError("ths"))
  }

  /** On any snapshot holding a candidate pair, the written `getReportsByType` throws, while the
      intended `getReportsByTypes([t])` returns a non-empty list. */
  lemma ThsTypoLosesCandidatePairs(rs: seq<Record>, i: nat)
    requires i < |rs| && rs[i].kind == CandidatePair
    ensures GetReportsByTypeAsWritten(Some(rs), CandidatePair).Threw?
    ensures Select(rs, TypeIn([CandidatePair])) != []
  {
    SelectMembers(rs, TypeIn([CandidatePair]));
    assert Keeps(rs[i], TypeIn([CandidatePair]));
  }
}
