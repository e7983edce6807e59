/** The shared helpers of the plugin: request trimming, URL prefixing, the
    zone guard, field masks, and turning operation events into a settled
    promise. */
module Helpers {
  import opened Wrappers
  import opened Strings
  import opened Values
  import opened Sorting

  // ---------------------------------------------------------------------
  // removeUndefinedAndEmpty
  // ---------------------------------------------------------------------

  /** The one key trimming never deletes and never descends into. */
  const AuthKey: string := "auth"

  /** What the entry holding `c` becomes after trimming: `None` when the
      entry is deleted. Undefined values are deleted; arrays and objects are
      trimmed and then deleted when nothing is left in them; every other
      value (null, false, 0, "" included) is kept as it is. */
  function PruneEntry(c: Json): Option<Json>
    decreases c, 2
  {
    match c
    case Undef => None
    case Arr(_) => var t := Prune(c); if NoKeys(t) then None else Some(t)
    case Obj(_) => var t := Prune(c); if NoKeys(t) then None else Some(t)
    case _ => Some(c)
  }

  /** The element at `i` of a trimmed array: a hole stays a hole. */
  function PruneItem(s: seq<Option<Json>>, i: nat): Option<Json>
    requires i < |s|
    decreases Arr(s), 0
  {
    if s[i].None? then None else PruneEntry(s[i].value)
  }

  /** The trimmed form of `v`. An object keeps `auth` verbatim and every
      other key whose entry survives; an array keeps its length, deleted
      elements becoming holes; anything else is returned unchanged. */
  function Prune(v: Json): Json
    decreases v, 1
  {
    match v
    case Obj(m) =>
      Obj(map k | k in m && (k == AuthKey || PruneEntry(m[k]).Some?) ::
            if k == AuthKey then m[k] else PruneEntry(m[k]).value)
    case Arr(s) => Arr(seq(|s|, i requires 0 <= i < |s| => PruneItem(s, i)))
    case _ => v
  }

  /** What `removeUndefinedAndEmpty(obj)` returns: `{}` for a falsy
      argument, the trimmed argument otherwise. */
  function Trimmed(obj: Json): Json {
    if !Truthy(obj) then Obj(map[]) else Prune(obj)
  }

  /** Nothing is left to trim in `v`: outside `auth` there is no undefined
      value and no array or object without keys, at any depth. */
  predicate IsPruned(v: Json)
    decreases v, 1
  {
    match v
    case Obj(m) => forall k :: k in m && k != AuthKey ==> EntryPruned(m[k])
    case Arr(s) => forall i :: 0 <= i < |s| && s[i].Some? ==> EntryPruned(s[i].value)
    case _ => true
  }

  predicate EntryPruned(c: Json)
    decreases c, 2
  {
    && c != Undef
    && (IsObject(c) ==> !NoKeys(c) && IsPruned(c))
  }

  /** `r` is `v` with some entries deleted, recursively: no key is added, no
      kept scalar changes, arrays keep their length, and the `auth` entry of
      every object is kept exactly as it was. */
  predicate DeletesOnly(v: Json, r: Json)
    decreases v, 1
  {
    match v
    case Obj(m) =>
      && r.Obj?
      && r.fields.Keys <= m.Keys
      && (AuthKey in m ==> AuthKey in r.fields && r.fields[AuthKey] == m[AuthKey])
      && forall k :: k in r.fields && k in m && k != AuthKey ==> DeletesOnly(m[k], r.fields[k])
    case Arr(s) =>
      && r.Arr?
      && |r.items| == |s|
      && forall i :: 0 <= i < |s| && r.items[i].Some? ==>
           s[i].Some? && DeletesOnly(s[i].value, r.items[i].value)
    case _ => r == v
  }

  lemma {:induction false} PruneEntryIsPruned(c: Json)
    ensures PruneEntry(c).Some? ==> EntryPruned(PruneEntry(c).value)
    decreases c, 2
  {
    if IsObject(c) {
      PruneIsPruned(c);
    }
  }

  /** After trimming there is nothing left to trim. */
  lemma {:induction false} PruneIsPruned(v: Json)
    ensures IsPruned(Prune(v))
    decreases v, 1
  {
    match v
    case Obj(m) =>
      var p := Prune(v).fields;
      forall k | k in p && k != AuthKey ensures EntryPruned(p[k]) {
        PruneEntryIsPruned(m[k]);
      }
    case Arr(s) =>
      var p := Prune(v).items;
      forall i | 0 <= i < |s| && p[i].Some? ensures EntryPruned(p[i].value) {
        assert p[i] == PruneItem(s, i);
        PruneEntryIsPruned(s[i].value);
      }
    case _ =>
  }

  lemma {:induction false} PruneEntryDeletesOnly(c: Json)
    ensures PruneEntry(c).Some? ==> DeletesOnly(c, PruneEntry(c).value)
    decreases c, 2
  {
    if IsObject(c) {
      PruneDeletesOnly(c);
    }
  }

  /** Trimming only deletes, and never touches `auth`. */
  lemma {:induction false} PruneDeletesOnly(v: Json)
    ensures DeletesOnly(v, Prune(v))
    decreases v, 1
  {
    match v
    case Obj(m) =>
      var p := Prune(v).fields;
      forall k | k in p && k in m && k != AuthKey ensures DeletesOnly(m[k], p[k]) {
        PruneEntryDeletesOnly(m[k]);
      }
    case Arr(s) =>
      var p := Prune(v).items;
      forall i | 0 <= i < |s| && p[i].Some? ensures s[i].Some? && DeletesOnly(s[i].value, p[i].value) {
        assert p[i] == PruneItem(s, i);
        PruneEntryDeletesOnly(s[i].value);
      }
    case _ =>
  }

  lemma {:induction false} PruneEntryOfPruned(c: Json)
    requires EntryPruned(c)
    ensures PruneEntry(c) == Some(c)
    decreases c, 2
  {
    if IsObject(c) {
      PruneOfPruned(c);
    }
  }

  /** Trimming leaves a value with nothing to trim unchanged. */
  lemma {:induction false} PruneOfPruned(v: Json)
    requires IsPruned(v)
    ensures Prune(v) == v
    decreases v, 1
  {
    match v
    case Obj(m) =>
      forall k | k in m && k != AuthKey ensures PruneEntry(m[k]) == Some(m[k]) {
        PruneEntryOfPruned(m[k]);
      }
      assert Prune(v).fields == m;
    case Arr(s) =>
      forall i | 0 <= i < |s| ensures PruneItem(s, i) == s[i] {
        if s[i].Some? {
          PruneEntryOfPruned(s[i].value);
        }
      }
      assert Prune(v).items == s;
    case _ =>
  }

  /** removeUndefinedAndEmpty is idempotent. */
  lemma {:induction false} TrimmedIdempotent(obj: Json)
    ensures Trimmed(Trimmed(obj)) == Trimmed(obj)
  {
    if Truthy(obj) {
      PruneIsPruned(obj);
      PruneOfPruned(Prune(obj));
      assert Truthy(Prune(obj)) by {
        if obj.Obj? || obj.Arr? {
        } else {
          assert Prune(obj) == obj;
        }
      }
    }
  }

  /** What removeUndefinedAndEmpty returns has nothing left to trim, holds
      only what the argument held, and keeps `auth` verbatim. */
  lemma {:induction false} TrimmedProperties(obj: Json)
    ensures IsPruned(Trimmed(obj))
    ensures Truthy(obj) ==> DeletesOnly(obj, Trimmed(obj))
    ensures !Truthy(obj) ==> Trimmed(obj) == Obj(map[])
  {
    if Truthy(obj) {
      PruneIsPruned(obj);
      PruneDeletesOnly(obj);
    }
  }

  /** A key other than `auth` survives exactly when its value is not
      undefined and, for an array or object, something is left in it after
      trimming; a scalar value (null, false, 0 and "" included) is kept as
      it is. */
  lemma {:induction false} PruneKeepsKey(m: map<string, Json>, k: string)
    requires k in m && k != AuthKey
    ensures k in Prune(Obj(m)).fields <==>
              m[k] != Undef && (IsObject(m[k]) ==> !NoKeys(Prune(m[k])))
    ensures k in Prune(Obj(m)).fields && !IsObject(m[k]) ==> Prune(Obj(m)).fields[k] == m[k]
    ensures k in Prune(Obj(m)).fields && IsObject(m[k]) ==> Prune(Obj(m)).fields[k] == Prune(m[k])
  {
  }

  /** An entry that trimming leaves as it is stays in the trimmed object. */
  lemma {:induction false} PruneKeepsEntry(m: map<string, Json>, k: string, v: Json)
    requires k in m && m[k] == v && k != AuthKey && PruneEntry(v) == Some(v)
    ensures k in Prune(Obj(m)).fields && Prune(Obj(m)).fields[k] == v
  {
  }

  /** An entry that trimming keeps appears trimmed in the trimmed object. */
  lemma {:induction false} PruneTrimsEntry(m: map<string, Json>, k: string, v: Json, w: Json)
    requires k in m && m[k] == v && k != AuthKey && PruneEntry(v) == Some(w)
    ensures k in Prune(Obj(m)).fields && Prune(Obj(m)).fields[k] == w
  {
  }

  /** An entry that trimming deletes is gone from the trimmed object. */
  lemma {:induction false} PruneDropsEntry(m: map<string, Json>, k: string, v: Json)
    requires k in m && m[k] == v && k != AuthKey && PruneEntry(v) == None
    ensures k !in Prune(Obj(m)).fields
  {
  }

  /** A non-empty array of strings survives trimming unchanged. */
  lemma {:induction false} PruneStrs(parts: seq<string>)
    requires parts != []
    ensures PruneEntry(Strs(parts)) == Some(Strs(parts))
  {
    var v := Strs(parts);
    assert v.items[0].Some?;
    assert EntryPruned(v);
    PruneEntryOfPruned(v);
  }

  /** Trimming a truthy object with a scalar or undefined entry only
      decides that one entry by its value, and treats the rest of the
      object as trimming the rest alone would. */
  lemma {:induction false} PruneUpdate(m: map<string, Json>, k: string, v: Json)
    requires k != AuthKey && !IsObject(v)
    ensures Prune(Obj(m[k := v])).fields ==
              if v == Undef then Prune(Obj(m)).fields - {k} else Prune(Obj(m)).fields[k := v]
  {
    var l := Prune(Obj(m[k := v])).fields;
    var p := Prune(Obj(m)).fields;
    var q := if v == Undef then p - {k} else p[k := v];
    assert PruneEntry(v) == if v == Undef then None else Some(v);
    forall j ensures j in l <==> j in q {
      if j != k && j in m && j != AuthKey {
        assert j in l <==> PruneEntry(m[j]).Some?;
      }
    }
    assert l.Keys == q.Keys;
    forall j | j in l ensures l[j] == q[j] {
    }
  }

  /** One entry of the object being trimmed, after the loop has visited it. */
  ghost predicate EntrySettled(m: map<string, Json>, obj: map<string, Json>, k: string)
    requires k in m
  {
    if k == AuthKey then k in obj && obj[k] == m[k]
    else if PruneEntry(m[k]).Some? then k in obj && obj[k] == PruneEntry(m[k]).value
    else k !in obj
  }

  /** removeUndefinedAndEmpty: `{}` for a falsy argument, the argument trimmed
      otherwise. */
  method RemoveUndefinedAndEmpty(obj: Json) returns (r: Json)
    ensures r == Trimmed(obj)
  {
    if !Truthy(obj) {
      return Obj(map[]);
    }
    r := PruneValue(obj);
  }

  /** One level of the recursion: objects and arrays are walked, anything
      else is left as it is. */
  method PruneValue(v: Json) returns (r: Json)
    ensures r == Prune(v)
    decreases v, 1
  {
    match v {
      case Obj(m) => r := PruneObject(m);
      case Arr(s) => r := PruneArray(s);
      case _ => r := v;
    }
  }

  /** Walks a snapshot of the object's entries, applying the three deletion
      rules to each entry in turn. */
  method PruneObject(m: map<string, Json>) returns (r: Json)
    ensures r == Prune(Obj(m))
    decreases Obj(m), 0
  {
    var entries := m.Keys;
    var obj := m;
    while entries != {}
      invariant entries <= m.Keys && obj.Keys <= m.Keys
      invariant forall k :: k in entries ==> k in obj && obj[k] == m[k]
      invariant forall k :: k in m && k !in entries ==> EntrySettled(m, obj, k)
      decreases entries
    {
      var key :| key in entries;
      var value := m[key];
      if key != AuthKey {
        if value == Undef {
          obj := obj - {key};
        }
        if value.Arr? && |value.items| == 0 {
          obj := obj - {key};
        }
        if Truthy(value) && IsObject(value) {
          var pruned := PruneValue(value);
          if key in obj {
            obj := obj[key := pruned];
          }
          if NoKeys(pruned) {
            obj := obj - {key};
          }
        }
      }
      entries := entries - {key};
    }
    var p := Prune(Obj(m)).fields;
    assert obj.Keys == p.Keys by {
      forall k | k in m ensures k in obj <==> k in p {
        assert EntrySettled(m, obj, k);
      }
    }
    forall k | k in obj ensures obj[k] == p[k] {
      assert EntrySettled(m, obj, k);
    }
    r := Obj(obj);
  }

  /** Walks the array's elements in order; a deleted element becomes a hole. */
  method PruneArray(s: seq<Option<Json>>) returns (r: Json)
    ensures r == Prune(Arr(s))
    decreases Arr(s), 0
  {
    var arr := s;
    for i := 0 to |s|
      invariant |arr| == |s|
      invariant forall j :: 0 <= j < i ==> arr[j] == PruneItem(s, j)
      invariant forall j :: i <= j < |s| ==> arr[j] == s[j]
    {
      if s[i].Some? {
        var value := s[i].value;
        if value == Undef {
          arr := arr[i := None];
        }
        if value.Arr? && |value.items| == 0 {
          arr := arr[i := None];
        }
        if Truthy(value) && IsObject(value) {
          var pruned := PruneValue(value);
          if arr[i].Some? {
            arr := arr[i := Some(pruned)];
          }
          if NoKeys(pruned) {
            arr := arr[i := None];
          }
        }
      }
    }
    r := Arr(arr);
  }

  // ---------------------------------------------------------------------
  // prependHttps
  // ---------------------------------------------------------------------

  /** The OAuth scope of full access to Google Cloud. */
  const CloudPlatformScope: string := "https://www.googleapis.com/auth/cloud-platform"

  const HttpsPrefix: string := "https://"

  /** The value itself when it already starts with `https://`, with that
      prefix added otherwise. */
  function PrependHttps(value: string): (r: string)
    ensures HttpsPrefix <= r
    ensures HttpsPrefix <= value ==> r == value
    ensures !(HttpsPrefix <= value) ==> r == HttpsPrefix + value
  {
    if HttpsPrefix <= value then value else HttpsPrefix + value
  }

  lemma {:induction false} PrependHttpsIdempotent(value: string)
    ensures PrependHttps(PrependHttps(value)) == PrependHttps(value)
  {
  }

  /** A cluster endpoint reported as a bare address becomes an HTTPS URL. */
  lemma {:induction false} PrependHttpsOfAddress()
    ensures PrependHttps("10.0.0.1") == "https://10.0.0.1"
  {
    assert !(HttpsPrefix <= "10.0.0.1") by {
      assert "10.0.0.1"[0] != HttpsPrefix[0];
    }
  }

  // ---------------------------------------------------------------------
  // validateZoneParameter
  // ---------------------------------------------------------------------

  const ZoneRequiredMessage: string :=
    "For zonal location type the parameter \"Zone\" must be provided."

  /** Throws exactly when the location type is "Zonal" and no zone is given. */
  function ValidateZoneParameter(locationType: Json, zone: Json): (r: Result<(), Json>)
    ensures r.Err? <==> locationType == Str("Zonal") && !Truthy(zone)
    ensures r.Err? ==> r.error == ErrorValue(ZoneRequiredMessage)
  {
    if locationType == Str("Zonal") && !Truthy(zone) then Err(ErrorValue(ZoneRequiredMessage))
    else Ok(())
  }

  // ---------------------------------------------------------------------
  // parseFields
  // ---------------------------------------------------------------------

  /** The string order of `Array.prototype.sort` without a comparator. */
  function StringLe(): (string, string) -> bool {
    (a: string, b: string) => LexLe(a, b)
  }

  lemma {:induction false} StringLeTotalPreorder()
    ensures TotalPreorder(StringLe())
  {
    forall a, b ensures StringLe()(a, b) || StringLe()(b, a) {
      LexLeTotal(a, b);
    }
    forall a, b, c | StringLe()(a, b) && StringLe()(b, c) ensures StringLe()(a, c) {
      LexLeTransitive(a, b, c);
    }
  }

  /** `prefix/field` for every field, in the given order. */
  function Prefixed(fields: seq<string>, prefix: string): (r: seq<string>)
    ensures |r| == |fields|
    ensures forall i :: 0 <= i < |fields| ==> r[i] == prefix + "/" + fields[i]
  {
    seq(|fields|, i requires 0 <= i < |fields| => prefix + "/" + fields[i])
  }

  /** The field mask parseFields builds from fields already sorted. */
  function FieldMask(sorted: seq<string>, prefix: string): string {
    Join(Prefixed(sorted, prefix), ", ")
  }

  /** The prefix parseFields uses when the caller passes none. */
  const DefaultFieldPrefix: string := "items"

  /** parseFields: a missing list gives no mask; otherwise the list is
      sorted in place (the caller sees the new order) and the mask lists
      `prefix/field` for every field in that order, separated by ", ".
      `prefix` is `None` when the caller omits it, and "items" is used. */
  method ParseFields(fields: array?<string>, prefix: Option<string>) returns (r: Option<string>)
    modifies fields
    ensures fields == null ==> r == None
    ensures fields != null ==>
              && multiset(fields[..]) == multiset(old(fields[..]))
              && SortedBy(fields[..], StringLe())
              && r == Some(FieldMask(fields[..], if prefix.Some? then prefix.value else DefaultFieldPrefix))
  {
    if fields == null {
      return None;
    }
    var resolvedPrefix := if prefix.Some? then prefix.value else DefaultFieldPrefix;
    var sorted := Sort(fields[..], StringLe());
    StringLeTotalPreorder();
    SortSorted(fields[..], StringLe());
    for i := 0 to fields.Length
      invariant forall j :: 0 <= j < i ==> fields[j] == sorted[j]
    {
      fields[i] := sorted[i];
    }
    assert fields[..] == sorted;
    r := Some(FieldMask(fields[..], resolvedPrefix));
  }

  lemma {:induction false} FieldMaskOfOne(field: string, prefix: string)
    ensures FieldMask([field], prefix) == prefix + "/" + field
  {
  }

  // ---------------------------------------------------------------------
  // handleOperation and defaultGcpCallback
  // ---------------------------------------------------------------------

  /** An event a long-running operation emits. */
  datatype Event =
    | ErrorEvent(err: Json)
    | RunningEvent(metadata: Json)
    | CompleteEvent(metadata: Json)

  /** The state of a promise after a sequence of events. */
  datatype Settlement = Resolved(value: Json) | Rejected(reason: Json) | Unsettled

  predicate IsTerminal(e: Event) {
    !e.RunningEvent?
  }

  /** The settlement a terminal event causes. */
  function SettlementOf(e: Event): Settlement
    requires IsTerminal(e)
  {
    if e.ErrorEvent? then Rejected(e.err) else Resolved(e.metadata)
  }

  /** The promise handleOperation returns, after the operation emitted
      `events` in this order: the first error or complete event settles it,
      and a promise settles only once. */
  function Settle(events: seq<Event>): Settlement {
    if events == [] then Unsettled
    else if IsTerminal(events[0]) then SettlementOf(events[0])
    else Settle(events[1..])
  }

  const NotAnEmitterMessage: string := "operation.on is not a function"

  /** What handleOperation is given: an event emitter, known by the events it
      emits in order, or any other value. */
  datatype Operation = Emitter(events: seq<Event>) | NotEmitter(value: Json)

  /** handleOperation: subscribing to anything but an event emitter throws
      inside the `try`, and the promise rejects with that TypeError. */
  function HandleOperation(operation: Operation): (r: Settlement)
    ensures operation.NotEmitter? && (operation.value.Undef? || operation.value.Null?) ==>
              r == Rejected(ReadError(operation.value, "on"))
    ensures operation.NotEmitter? && !operation.value.Undef? && !operation.value.Null? ==>
              r == Rejected(TypeErrorValue(NotAnEmitterMessage))
  {
    match operation
    case NotEmitter(v) =>
      if v.Undef? || v.Null? then Rejected(ReadError(v, "on")) else Rejected(TypeErrorValue(NotAnEmitterMessage))
    case Emitter(events) => Settle(events)
  }

  /** The first terminal event decides the settlement. */
  lemma {:induction false} SettleFirstTerminal(events: seq<Event>, i: nat)
    requires i < |events| && IsTerminal(events[i])
    requires forall j :: 0 <= j < i ==> !IsTerminal(events[j])
    ensures Settle(events) == SettlementOf(events[i])
  {
    if i > 0 {
      SettleFirstTerminal(events[1..], i - 1);
    }
  }

  /** Without a terminal event the promise stays pending. */
  lemma {:induction false} SettleNoTerminal(events: seq<Event>)
    requires forall j :: 0 <= j < |events| ==> !IsTerminal(events[j])
    ensures Settle(events) == Unsettled
  {
    if events != [] {
      SettleNoTerminal(events[1..]);
    }
  }

  /** Events after the settling one change nothing. */
  lemma {:induction false} SettleOnce(events: seq<Event>, later: seq<Event>)
    requires Settle(events) != Unsettled
    ensures Settle(events + later) == Settle(events)
  {
    assert events != [];
    if !IsTerminal(events[0]) {
      assert (events + later)[1..] == events[1..] + later;
      SettleOnce(events[1..], later);
    }
  }

  /** The events without the progress ones. */
  function Terminals(events: seq<Event>): (r: seq<Event>)
    ensures forall j :: 0 <= j < |r| ==> IsTerminal(r[j])
  {
    if events == [] then []
    else if IsTerminal(events[0]) then [events[0]] + Terminals(events[1..])
    else Terminals(events[1..])
  }

  /** Progress events are only logged: dropping them changes nothing. */
  lemma {:induction false} SettleIgnoresRunning(events: seq<Event>)
    ensures Settle(Terminals(events)) == Settle(events)
  {
    if events != [] && !IsTerminal(events[0]) {
      SettleIgnoresRunning(events[1..]);
    }
  }

  /** What the provider passes to a callback: the error (falsy on success),
      the operation handle and the raw API response. */
  datatype CallbackArgs = CallbackArgs(err: Json, operation: Operation, apiResponse: Json)

  /** The promise wired through defaultGcpCallback: a truthy error rejects
      with it; otherwise it resolves with the API response, or, when waiting,
      follows the operation. */
  function DefaultGcpCallback(waitForOperation: Json, args: CallbackArgs): (r: Settlement)
    ensures Truthy(args.err) ==> r == Rejected(args.err)
    ensures !Truthy(args.err) && !Truthy(waitForOperation) ==> r == Resolved(args.apiResponse)
    ensures !Truthy(args.err) && Truthy(waitForOperation) ==> r == HandleOperation(args.operation)
  {
    if Truthy(args.err) then Rejected(args.err)
    else if !Truthy(waitForOperation) then Resolved(args.apiResponse)
    else HandleOperation(args.operation)
  }

  /** When waiting, a successful call settles as its operation's first
      terminal event says. */
  lemma {:induction false} DefaultGcpCallbackWaits(waitForOperation: Json, args: CallbackArgs, i: nat)
    requires !Truthy(args.err) && Truthy(waitForOperation) && args.operation.Emitter?
    requires i < |args.operation.events| && IsTerminal(args.operation.events[i])
    requires forall j :: 0 <= j < i ==> !IsTerminal(args.operation.events[j])
    ensures DefaultGcpCallback(waitForOperation, args) == SettlementOf(args.operation.events[i])
  {
    SettleFirstTerminal(args.operation.events, i);
  }
}
