/** The older copy of the request-trimming helper: it has no guard for a
    falsy argument and descends into every `typeof "object"` value, `null`
    included, so a `null` anywhere outside `auth` makes it throw. */
module LegacyHelpers {
  import opened Wrappers
  import opened Values
  import opened Helpers

  /** What `Object.entries(null)` and `Object.entries(undefined)` throw. */
  const NullConversionError: Json :=
    TypeErrorValue("Cannot convert undefined or null to object")

  /** `typeof v === "object"`, which holds for null. */
  predicate IsObjectType(v: Json) {
    v.Null? || v.Arr? || v.Obj?
  }

  /** What the entry holding `c` becomes, or what trimming it threw. */
  function LegacyEntry(c: Json): Result<Option<Json>, Json>
    decreases c, 2
  {
    if c == Undef then Ok(None)
    else if IsObjectType(c) then
      match LegacyPrune(c)
      case Err(e) => Err(e)
      case Ok(t) => Ok(if NoKeys(t) then None else Some(t))
    else Ok(Some(c))
  }

  function LegacyItem(s: seq<Option<Json>>, i: nat): Result<Option<Json>, Json>
    requires i < |s|
    decreases Arr(s), 0
  {
    if s[i].None? then Ok(None) else LegacyEntry(s[i].value)
  }

  /** The legacy removeUndefinedAndEmpty: it throws for `null` or
      `undefined`, and for any object or array with a failing entry;
      otherwise it trims as the current helper does. */
  function LegacyPrune(v: Json): Result<Json, Json>
    decreases v, 1
  {
    match v
    case Undef => Err(NullConversionError)
    case Null => Err(NullConversionError)
    case Obj(m) =>
      if exists k :: k in m && k != AuthKey && LegacyEntry(m[k]).Err? then Err(NullConversionError)
      else Ok(Obj(map k | k in m && (k == AuthKey || LegacyEntry(m[k]).value.Some?) ::
                    if k == AuthKey then m[k] else LegacyEntry(m[k]).value.value))
    case Arr(s) =>
      if exists i :: 0 <= i < |s| && LegacyItem(s, i).Err? then Err(NullConversionError)
      else Ok(Arr(seq(|s|, i requires 0 <= i < |s| && LegacyItem(s, i).Ok? => LegacyItem(s, i).value)))
    case _ => Ok(v)
  }

  /** The legacy helper throws exactly when `v` is null or undefined, or
      holds a null outside `auth` at some depth. */
  predicate ReachesNull(v: Json)
    decreases v, 1
  {
    match v
    case Undef => true
    case Null => true
    case Obj(m) => exists k :: k in m && k != AuthKey && EntryReachesNull(m[k])
    case Arr(s) => exists i :: 0 <= i < |s| && s[i].Some? && EntryReachesNull(s[i].value)
    case _ => false
  }

  predicate EntryReachesNull(c: Json)
    decreases c, 2
  {
    c.Null? || (IsObject(c) && ReachesNull(c))
  }

  lemma {:induction false} LegacyEntryMatches(c: Json)
    ensures LegacyEntry(c) == if EntryReachesNull(c) then Err(NullConversionError) else Ok(PruneEntry(c))
    decreases c, 2
  {
    if IsObject(c) {
      LegacyPruneMatches(c);
    }
  }

  /** The legacy helper fails exactly when a null is reachable outside
      `auth`, and otherwise agrees with the current trimming. */
  lemma {:induction false} LegacyPruneMatches(v: Json)
    ensures LegacyPrune(v) == if ReachesNull(v) then Err(NullConversionError) else Ok(Prune(v))
    decreases v, 1
  {
    match v
    case Obj(m) =>
      forall k | k in m && k != AuthKey {
        LegacyEntryMatches(m[k]);
      }
      if !ReachesNull(v) {
        var l := LegacyPrune(v).value.fields;
        var p := Prune(v).fields;
        assert l.Keys == p.Keys;
        assert l == p;
      }
    case Arr(s) =>
      forall i | 0 <= i < |s|
        ensures LegacyItem(s, i) == if s[i].Some? && EntryReachesNull(s[i].value)
                                    then Err(NullConversionError) else Ok(PruneItem(s, i))
      {
        if s[i].Some? {
          LegacyEntryMatches(s[i].value);
        }
      }
      if ReachesNull(v) {
        var i :| 0 <= i < |s| && s[i].Some? && EntryReachesNull(s[i].value);
        assert LegacyItem(s, i).Err?;
      } else {
        assert forall i :: 0 <= i < |s| ==> LegacyItem(s, i).Ok?;
        assert !(exists i :: 0 <= i < |s| && LegacyItem(s, i).Err?);
        assert LegacyPrune(v).Ok?;
        var l := LegacyPrune(v).value.items;
        var p := Prune(v).items;
        forall i | 0 <= i < |s| ensures l[i] == p[i] {
          assert p[i] == PruneItem(s, i);
        }
        assert l == p;
      }
    case _ =>
  }

  /** Where the two helpers differ: the current one answers `{}` for any
      falsy argument, the legacy one throws for null and undefined and
      returns the other falsy values unchanged. */
  lemma {:induction false} LegacyDiffersOnFalsy(obj: Json)
    requires !Truthy(obj)
    ensures Trimmed(obj) == Obj(map[])
    ensures obj.Undef? || obj.Null? ==> LegacyPrune(obj) == Err(NullConversionError)
    ensures !obj.Undef? && !obj.Null? ==> LegacyPrune(obj) == Ok(obj)
  {
  }

  /** On a truthy argument without a reachable null the helpers agree. */
  lemma {:induction false} LegacyAgreesWithCurrent(obj: Json)
    requires Truthy(obj) && !ReachesNull(obj)
    ensures LegacyPrune(obj) == Ok(Trimmed(obj))
  {
    LegacyPruneMatches(obj);
  }

  /** The legacy removeUndefinedAndEmpty, walking entries as the source does
      and throwing as soon as a recursive call throws. */
  method LegacyRemoveUndefinedAndEmpty(obj: Json) returns (r: Result<Json, Json>)
    ensures r == LegacyPrune(obj)
  {
    r := LegacyPruneValue(obj);
  }

  method LegacyPruneValue(v: Json) returns (r: Result<Json, Json>)
    ensures r == LegacyPrune(v)
    decreases v, 1
  {
    match v {
      case Undef => r := Err(NullConversionError);
      case Null => r := Err(NullConversionError);
      case Obj(m) => r := LegacyPruneObject(m);
      case Arr(s) => r := LegacyPruneArray(s);
      case _ => r := Ok(v);
    }
  }

  ghost predicate LegacySettled(m: map<string, Json>, obj: map<string, Json>, k: string)
    requires k in m
  {
    if k == AuthKey then k in obj && obj[k] == m[k]
    else if LegacyEntry(m[k]).Err? then false
    else if LegacyEntry(m[k]).value.Some? then k in obj && obj[k] == LegacyEntry(m[k]).value.value
    else k !in obj
  }

  method LegacyPruneObject(m: map<string, Json>) returns (r: Result<Json, Json>)
    ensures r == LegacyPrune(Obj(m))
    decreases Obj(m), 0
  {
    var entries := m.Keys;
    var obj := m;
    while entries != {}
      invariant entries <= m.Keys && obj.Keys <= m.Keys
      invariant forall k :: k in entries ==> k in obj && obj[k] == m[k]
      invariant forall k :: k in m && k !in entries ==> LegacySettled(m, obj, k)
      decreases entries
    {
      var key :| key in entries;
      var value := m[key];
      if key != AuthKey {
        if value == Undef {
          obj := obj - {key};
        }
        if value.Arr? && |value.items| == 0 {
          obj := obj - {key};
        }
        if IsObjectType(value) {
          var pruned := LegacyPruneValue(value);
          if pruned.Err? {
            LegacyPruneMatches(value);
            assert key in m && key != AuthKey && LegacyEntry(m[key]).Err?;
            assert LegacyPrune(Obj(m)) == Err(NullConversionError);
            return Err(pruned.error);
          }
          if key in obj {
            obj := obj[key := pruned.value];
          }
          if NoKeys(pruned.value) {
            obj := obj - {key};
          }
        }
      }
      entries := entries - {key};
    }
    LegacyPruneOfSettled(m, obj);
    r := Ok(Obj(obj));
  }

  /** Once every entry is settled, the object built is the trimmed one. */
  lemma {:induction false} LegacyPruneOfSettled(m: map<string, Json>, obj: map<string, Json>)
    requires obj.Keys <= m.Keys
    requires forall k :: k in m ==> LegacySettled(m, obj, k)
    ensures LegacyPrune(Obj(m)) == Ok(Obj(obj))
  {
    var p := LegacyPrune(Obj(m));
    assert !exists k :: k in m && k != AuthKey && LegacyEntry(m[k]).Err? by {
      forall k | k in m && k != AuthKey ensures LegacyEntry(m[k]).Ok? {
        assert LegacySettled(m, obj, k);
      }
    }
    assert obj.Keys == p.value.fields.Keys by {
      forall k | k in m ensures k in obj <==> k in p.value.fields {
        assert LegacySettled(m, obj, k);
      }
    }
    forall k | k in obj ensures obj[k] == p.value.fields[k] {
      assert LegacySettled(m, obj, k);
    }
    assert obj == p.value.fields;
  }

  method LegacyPruneArray(s: seq<Option<Json>>) returns (r: Result<Json, Json>)
    ensures r == LegacyPrune(Arr(s))
    decreases Arr(s), 0
  {
    var arr := s;
    for i := 0 to |s|
      invariant |arr| == |s|
      invariant forall j :: 0 <= j < i ==> LegacyItem(s, j) == Ok(arr[j])
      invariant forall j :: i <= j < |s| ==> arr[j] == s[j]
    {
      if s[i].Some? {
        var value := s[i].value;
        if value == Undef {
          arr := arr[i := None];
        }
        if value.Arr? && |value.items| == 0 {
          arr := arr[i := None];
        }
        if IsObjectType(value) {
          var pruned := LegacyPruneValue(value);
          if pruned.Err? {
            assert LegacyItem(s, i).Err?;
            LegacyPruneMatches(value);
            return Err(pruned.error);
          }
          if arr[i].Some? {
            arr := arr[i := Some(pruned.value)];
          }
          if NoKeys(pruned.value) {
            arr := arr[i := None];
          }
        }
      }
    }
    assert forall j :: 0 <= j < |s| ==> LegacyItem(s, j).Ok?;
    assert !(exists j :: 0 <= j < |s| && LegacyItem(s, j).Err?);
    assert LegacyPrune(Arr(s)).Ok?;
    assert arr == LegacyPrune(Arr(s)).value.items;
    r := Ok(Arr(arr));
  }
}
