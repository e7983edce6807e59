/** The loose-input parsers: each takes a raw action parameter (falsy,
    string, array or object) and returns the value a service call expects,
    or throws. */
module Parsers {
  import opened Wrappers
  import opened Strings
  import opened Values

  /** `Value <v> is not a valid ...`-style message prefix. */
  function ValueText(value: Json): string {
    "Value " + ToJsString(value)
  }

  // ---------------------------------------------------------------------
  // boolean
  // ---------------------------------------------------------------------

  /** false exactly for falsy values and the string "false". */
  function Boolean(value: Json): (r: bool)
    ensures value.Undef? || value.Null? ==> !r
    ensures value.Bool? ==> r == value.b
    ensures value.Num? ==> (r <==> value.n != 0)
    ensures value.Str? ==> (r <==> value.s != "" && value.s != "false")
    ensures IsObject(value) ==> r
  {
    !(!Truthy(value) || value == Str("false"))
  }

  /** Only the exact lower-case word counts as false. */
  lemma {:induction false} BooleanIsCaseSensitive()
    ensures Boolean(Str("False")) && Boolean(Str("0")) && !Boolean(Str("false"))
  {
  }

  // ---------------------------------------------------------------------
  // text
  // ---------------------------------------------------------------------

  const SplitNotAFunction: string := "value.split is not a function"

  /** A truthy string becomes its lines; falsy gives undefined (`None`);
      any other truthy value has no `split` and throws. */
  function Text(value: Json): (r: Result<Option<seq<string>>, Json>)
    ensures !Truthy(value) ==> r == Ok(None)
    ensures Truthy(value) && !value.Str? ==> r == Err(TypeErrorValue(SplitNotAFunction))
    ensures Truthy(value) && value.Str? ==>
              && r.Ok? && r.value.Some?
              && (forall i :: 0 <= i < |r.value.value| ==> Avoids(r.value.value[i], {'\n'}))
              && Join(r.value.value, "\n") == value.s
  {
    if !Truthy(value) then Ok(None)
    else if value.Str? then
      JoinSplit(value.s, '\n');
      Ok(Some(Split(value.s, {'\n'})))
    else Err(TypeErrorValue(SplitNotAFunction))
  }

  // ---------------------------------------------------------------------
  // number
  // ---------------------------------------------------------------------

  function NotANumber(value: Json): Json {
    ErrorValue(ValueText(value) + " is not a valid number")
  }

  /** Falsy gives undefined; otherwise `parseInt(value, 10)` of the value's
      string form, throwing when no digits lead it. */
  function Number(value: Json): (r: Result<Option<int>, Json>)
    ensures !Truthy(value) ==> r == Ok(None)
    ensures Truthy(value) ==>
              r == match ParseInt(ToJsString(value))
                   case None => Err(NotANumber(value))
                   case Some(n) => Ok(Some(n))
  {
    if !Truthy(value) then Ok(None)
    else match ParseInt(ToJsString(value))
      case None => Err(NotANumber(value))
      case Some(n) => Ok(Some(n))
  }

  /** A number and its decimal string both parse back to the number (0, the
      number, is falsy and gives undefined; "0", the string, is truthy). */
  lemma {:induction false} NumberOfNumber(n: int)
    ensures Number(Num(n)) == if n == 0 then Ok(None) else Ok(Some(n))
    ensures Number(Str(IntToString(n))) == Ok(Some(n))
  {
    assert ToJsString(Num(n)) == IntToString(n);
    assert ToJsString(Str(IntToString(n))) == IntToString(n);
    ParseIntOfIntToString(n);
    assert IntToString(n) != "" by {
      if n < 0 {
      } else {
        assert |NatToString(n)| >= 1;
      }
    }
  }

  /** `parseInt` stops at the first non-digit. */
  lemma {:induction false} NumberStopsAtNonDigit()
    ensures Number(Str("12abc")) == Ok(Some(12))
  {
    assert ToJsString(Str("12abc")) == "12abc";
    ParseIntOf12abc();
  }

  /** Without a leading digit, `number` throws. */
  lemma {:induction false} NumberWithoutDigits()
    ensures Number(Str("abc")) == Err(NotANumber(Str("abc")))
  {
    assert ToJsString(Str("abc")) == "abc";
    ParseIntOfAbc();
  }

  lemma {:induction false} ParseIntOfAbc()
    ensures ParseInt("abc") == None
  {
    var u := "abc";
    assert !IsWhitespace(u[0]) && !IsDigit(u[0]) && u[0] != '-' && u[0] != '+';
    assert TrimStart(u) == u;
  }

  lemma {:induction false} ParseIntOf12abc()
    ensures ParseInt("12abc") == Some(12)
  {
    var t := "12abc";
    assert !IsWhitespace(t[0]) && t[0] != '-' && t[0] != '+';
    assert TrimStart(t) == t;
    assert t[1..] == "2abc" && t[2..] == "abc";
    assert LeadingDigits(t[2..]) == [];
    assert LeadingDigits(t[1..]) == "2";
    assert LeadingDigits(t) == "12";
    assert DigitsValue("12") == 12 by {
      assert "12"[..1] == "1";
    }
  }



  // ---------------------------------------------------------------------
  // string
  // ---------------------------------------------------------------------

  /** Falsy gives undefined, a string is returned trimmed, anything else
      throws. */
  function String(value: Json): (r: Result<Option<string>, Json>)
    ensures !Truthy(value) ==> r == Ok(None)
    ensures Truthy(value) && value.Str? ==> r == Ok(Some(Trim(value.s))) && IsTrimmed(r.value.value)
    ensures Truthy(value) && !value.Str? ==> r == Err(ErrorValue(ValueText(value) + " is not a valid string"))
  {
    if !Truthy(value) then Ok(None)
    else if value.Str? then Ok(Some(Trim(value.s)))
    else Err(ErrorValue(ValueText(value) + " is not a valid string"))
  }

  /** A blank string is truthy and trims to the empty string. */
  lemma {:induction false} StringOfBlank()
    ensures String(Str("   ")) == Ok(Some(""))
  {
    var t := "   ";
    assert IsWhitespace(t[0]) && t[1..] == "  " && t[2..] == " " && t[3..] == "";
    assert TrimStart(t[2..]) == "";
    assert TrimStart(t[1..]) == "";
    assert TrimStart(t) == "";
  }


  // ---------------------------------------------------------------------
  // array
  // ---------------------------------------------------------------------

  /** The non-empty trimmed lines of a text. */
  function Lines(parts: seq<string>): (r: seq<string>)
    ensures forall i :: 0 <= i < |r| ==> CleanLine(r[i])
  {
    if parts == [] then []
    else
      var t := Trim(parts[0]);
      var rest := Lines(parts[1..]);
      if t == "" then rest
      else
        assert forall i :: 1 <= i < |rest| + 1 ==> ([t] + rest)[i] == rest[i - 1];
        [t] + rest
  }

  const UnsupportedArrayFormat: string := "Unsupported array format"

  /** Falsy gives `[]`, an array is returned unchanged, a string becomes its
      trimmed non-empty lines, anything else throws. */
  function Array(value: Json): (r: Result<Json, Json>)
    ensures !Truthy(value) ==> r == Ok(Arr([]))
    ensures value.Arr? ==> r == Ok(value)
    ensures Truthy(value) && value.Str? ==> r == Ok(Strs(Lines(Split(value.s, {'\n'}))))
    ensures Truthy(value) && !value.Str? && !value.Arr? ==> r == Err(ErrorValue(UnsupportedArrayFormat))
  {
    if !Truthy(value) then Ok(Arr([]))
    else if value.Arr? then Ok(value)
    else if value.Str? then Ok(Strs(Lines(Split(value.s, {'\n'}))))
    else Err(ErrorValue(UnsupportedArrayFormat))
  }

  /** A line `array` keeps as it is: non-empty and trimmed. */
  predicate CleanLine(p: string) {
    p != "" && IsTrimmed(p)
  }

  lemma {:induction false} LinesOfClean(parts: seq<string>)
    requires forall i :: 0 <= i < |parts| ==> CleanLine(parts[i])
    ensures Lines(parts) == parts
  {
    if parts != [] {
      var rest := parts[1..];
      assert CleanLine(parts[0]);
      TrimOfTrimmed(parts[0]);
      LinesOfClean(rest);
      assert [parts[0]] + rest == parts;
    }
  }

  /** Joining non-empty trimmed single-line entries with newlines and parsing
      the text gives back the same entries. */
  lemma {:induction false} ArrayOfJoinedLines(parts: seq<string>)
    requires |parts| >= 1
    requires forall i :: 0 <= i < |parts| ==> CleanLine(parts[i]) && Avoids(parts[i], {'\n'})
    ensures Array(Str(Join(parts, "\n"))) == Ok(Strs(parts))
  {
    JoinedLinesNonEmpty(parts);
    LinesOfJoined(parts);
  }

  lemma {:induction false} JoinedLinesNonEmpty(parts: seq<string>)
    requires |parts| >= 1 && CleanLine(parts[0])
    ensures Join(parts, "\n") != ""
  {
    JoinStartsWith(parts, "\n");
  }

  lemma {:induction false} LinesOfJoined(parts: seq<string>)
    requires forall i :: 0 <= i < |parts| ==> CleanLine(parts[i]) && Avoids(parts[i], {'\n'})
    requires |parts| >= 1
    ensures Lines(Split(Join(parts, "\n"), {'\n'})) == parts
  {
    SplitJoin(parts, '\n');
    LinesOfClean(parts);
  }



  lemma {:induction false} JoinStartsWith(parts: seq<string>, sep: string)
    requires |parts| >= 1
    ensures parts[0] <= Join(parts, sep)
  {
    if |parts| > 1 {
      JoinStartsWith(parts[1..], sep);
    }
  }

  // ---------------------------------------------------------------------
  // tags
  // ---------------------------------------------------------------------

  const BadTagsFormat: string := "bad labels/tags format"

  /** One line of a tags text: its key and its value, split at the first
      `=` of the trimmed line; later `=` characters stay in the value. An
      empty key throws. */
  function TagEntry(line: string): Result<(string, string), Json> {
    var parts := Split(Trim(line), {'='});
    if parts[0] == "" then Err(ErrorValue(BadTagsFormat))
    else Ok((parts[0], if |parts| > 1 then Join(parts[1..], "=") else ""))
  }

  /** The tags object built line by line onto `acc`; the first bad line
      throws, and a later line for the same key overwrites an earlier one. */
  function TagsFrom(acc: map<string, string>, lines: seq<string>): Result<map<string, string>, Json>
    decreases |lines|
  {
    if lines == [] then Ok(acc)
    else match TagEntry(lines[0])
      case Err(e) => Err(e)
      case Ok(kv) => TagsFrom(acc[kv.0 := kv.1], lines[1..])
  }

  function NotValidTags(value: Json): Json {
    ErrorValue(ValueText(value) + " is not a valid tags/labels input.")
  }

  /** What `tags` returns: undefined for falsy, the tags object for a string,
      and a thrown error for any other value. */
  function TagsOf(value: Json): Result<Option<map<string, string>>, Json> {
    if !Truthy(value) then Ok(None)
    else if value.Str? then
      match TagsFrom(map[], Split(value.s, {'\n'}))
      case Err(e) => Err(e)
      case Ok(m) => Ok(Some(m))
    else Err(NotValidTags(value))
  }

  /** tags: builds the object key by key over the lines. `letKeyOnly` has no
      effect: the source tests the rest of the split, which is always an
      array and so never falsy. */
  method Tags(value: Json, letKeyOnly: Json) returns (r: Result<Option<map<string, string>>, Json>)
    ensures r == TagsOf(value)
  {
    if !Truthy(value) {
      return Ok(None);
    }
    if !value.Str? {
      return Err(NotValidTags(value));
    }
    var lines := Split(value.s, {'\n'});
    var obj: map<string, string> := map[];
    for i := 0 to |lines|
      invariant TagsFrom(map[], lines) == TagsFrom(obj, lines[i..])
    {
      assert lines[i..][1..] == lines[i + 1..];
      var parts := Split(Trim(lines[i]), {'='});
      var key := parts[0];
      var val := parts[1..];
      if key == "" {
        return Err(ErrorValue(BadTagsFormat));
      }
      if |val| > 0 {
        obj := obj[key := Join(val, "=")];
      } else {
        obj := obj[key := ""];
      }
    }
    assert lines[|lines|..] == [];
    r := Ok(Some(obj));
  }

  /** A line `key=rest` gives the key and everything after the first `=`. */
  lemma {:induction false} TagEntrySplitsAtFirstEquals(line: string, key: string, rest: string)
    requires Trim(line) == key + "=" + rest
    requires key != "" && Avoids(key, {'='})
    ensures TagEntry(line) == Ok((key, rest))
  {
    SplitAtSeparator(key, '=', rest, {'='});
    JoinSplit(rest, '=');
  }

  /** A line without `=` is a key with the empty value. */
  lemma {:induction false} TagEntryKeyOnly(line: string)
    requires Trim(line) != "" && Avoids(Trim(line), {'='})
    ensures TagEntry(line) == Ok((Trim(line), ""))
  {
    SplitOfSeparatorFree(Trim(line), {'='});
  }

  /** A blank line, or one starting with `=`, has an empty key and throws. */
  lemma {:induction false} TagEntryEmptyKey(line: string)
    requires Trim(line) == "" || Trim(line)[0] == '='
    ensures TagEntry(line) == Err(ErrorValue(BadTagsFormat))
  {
    SplitLeadingEmpty(Trim(line));
  }

  lemma {:induction false} SplitLeadingEmpty(t: string)
    requires t == "" || t[0] == '='
    ensures Split(t, {'='})[0] == ""
  {
  }

  /** Building fails exactly when some line has an empty key. */
  lemma {:induction false} TagsFromFails(acc: map<string, string>, lines: seq<string>)
    ensures TagsFrom(acc, lines).Err? <==> exists i :: 0 <= i < |lines| && TagEntry(lines[i]).Err?
    decreases |lines|
  {
    if lines != [] && TagEntry(lines[0]).Ok? {
      var kv := TagEntry(lines[0]).value;
      TagsFromFails(acc[kv.0 := kv.1], lines[1..]);
      if exists i :: 0 <= i < |lines[1..]| && TagEntry(lines[1..][i]).Err? {
        var i :| 0 <= i < |lines[1..]| && TagEntry(lines[1..][i]).Err?;
        assert TagEntry(lines[i + 1]).Err?;
      }
      if exists i :: 0 <= i < |lines| && TagEntry(lines[i]).Err? {
        var i :| 0 <= i < |lines| && TagEntry(lines[i]).Err?;
        assert i > 0 && lines[1..][i - 1] == lines[i];
      }
    }
  }

  /** A trailing newline leaves an empty last line, so the input throws. */
  lemma {:induction false} TagsTrailingNewline(s: string)
    ensures TagsOf(Str(s + "\n")).Err?
  {
    var text := s + "\n";
    var lines := Split(text, {'\n'});
    var last := |lines| - 1;
    LastSplitPieceEmpty(s);
    assert Trim(lines[last]) == "";
    TagEntryEmptyKey(lines[last]);
    TagsFromFails(map[], lines);
    assert TagsFrom(map[], lines).Err?;
    assert text != "" && Truthy(Str(text));
  }

  lemma {:induction false} LastSplitPieceEmpty(s: string)
    ensures Split(s + "\n", {'\n'})[|Split(s + "\n", {'\n'})| - 1] == ""
  {
    if s == [] {
      assert Split("\n", {'\n'}) == [""] + Split("", {'\n'});
    } else {
      assert (s + "\n")[1..] == s[1..] + "\n";
      LastSplitPieceEmpty(s[1..]);
    }
  }

  /** Every key of a built tags object came from `acc` or from a line, and
      every line's key is in it. */
  lemma {:induction false} TagsFromKeys(acc: map<string, string>, lines: seq<string>)
    requires TagsFrom(acc, lines).Ok?
    ensures acc.Keys <= TagsFrom(acc, lines).value.Keys
    ensures forall i :: 0 <= i < |lines| ==> TagEntry(lines[i]).Ok? && TagEntry(lines[i]).value.0 in TagsFrom(acc, lines).value
    decreases |lines|
  {
    if lines != [] {
      var kv := TagEntry(lines[0]).value;
      TagsFromKeys(acc[kv.0 := kv.1], lines[1..]);
      forall i | 1 <= i < |lines| ensures TagEntry(lines[i]).Ok? && TagEntry(lines[i]).value.0 in TagsFrom(acc, lines).value {
        assert lines[1..][i - 1] == lines[i];
      }
    }
  }

  /** The last line for a key decides its value. */
  lemma {:induction false} TagsFromLastWins(acc: map<string, string>, lines: seq<string>, i: nat)
    requires TagsFrom(acc, lines).Ok? && i < |lines|
    requires forall j :: i < j < |lines| && TagEntry(lines[j]).Ok? && TagEntry(lines[i]).Ok? ==>
               TagEntry(lines[j]).value.0 != TagEntry(lines[i]).value.0
    ensures TagEntry(lines[i]).Ok? && TagEntry(lines[i]).value.0 in TagsFrom(acc, lines).value
    ensures TagsFrom(acc, lines).value[TagEntry(lines[i]).value.0] == TagEntry(lines[i]).value.1
    decreases |lines|
  {
    assert TagEntry(lines[0]).Ok?;
    var kv := TagEntry(lines[0]).value;
    var next := acc[kv.0 := kv.1];
    var rest := lines[1..];
    assert TagsFrom(acc, lines) == TagsFrom(next, rest);
    if i == 0 {
      forall j | 0 <= j < |rest| && TagEntry(rest[j]).Ok? ensures TagEntry(rest[j]).value.0 != kv.0 {
        assert rest[j] == lines[j + 1];
      }
      TagsFromUntouched(next, rest, kv.0);
    } else {
      forall j | i - 1 < j < |rest| && TagEntry(rest[j]).Ok? && TagEntry(rest[i - 1]).Ok?
        ensures TagEntry(rest[j]).value.0 != TagEntry(rest[i - 1]).value.0
      {
        assert rest[j] == lines[j + 1] && rest[i - 1] == lines[i];
      }
      TagsFromLastWins(next, rest, i - 1);
      assert rest[i - 1] == lines[i];
    }
  }


  /** A key no line mentions keeps its value from `acc`. */
  lemma {:induction false} TagsFromUntouched(acc: map<string, string>, lines: seq<string>, k: string)
    requires TagsFrom(acc, lines).Ok? && k in acc
    requires forall j :: 0 <= j < |lines| ==> TagEntry(lines[j]).Ok? ==> TagEntry(lines[j]).value.0 != k
    ensures k in TagsFrom(acc, lines).value && TagsFrom(acc, lines).value[k] == acc[k]
    decreases |lines|
  {
    if lines != [] {
      var kv := TagEntry(lines[0]).value;
      TagsFromUntouched(acc[kv.0 := kv.1], lines[1..], k);
    }
  }

  /** A line that names a key and has no `=` at all. */
  predicate KeyOnly(line: string) {
    Trim(line) != "" && Avoids(Trim(line), {'='})
  }

  /** `tags` as its guard is evidently meant to read (`!val.length` rather
      than `!val`): unless `letKeyOnly` is truthy, a key-only line throws the
      same error an empty key does. Since both errors are the same value, it
      does not matter which bad line comes first. */
  function IntendedTagsOf(value: Json, letKeyOnly: Json): (r: Result<Option<map<string, string>>, Json>)
    ensures Truthy(letKeyOnly) ==> r == TagsOf(value)
    ensures r.Ok? ==> r == TagsOf(value)
    ensures r.Ok? && value.Str? && !Truthy(letKeyOnly) ==>
      forall i :: 0 <= i < |Split(value.s, {'\n'})| ==> !KeyOnly(Split(value.s, {'\n'})[i])
  {
    if Truthy(value) && value.Str? && !Truthy(letKeyOnly)
       && exists i :: 0 <= i < |Split(value.s, {'\n'})| && KeyOnly(Split(value.s, {'\n'})[i])
    then Err(ErrorValue(BadTagsFormat))
    else TagsOf(value)
  }

  /** Without `letKeyOnly`, any key-only line makes the intended `tags` throw. */
  lemma {:induction false} IntendedTagsRejectsKeyOnly(s: string, letKeyOnly: Json, i: nat)
    requires !Truthy(letKeyOnly) && i < |Split(s, {'\n'})| && KeyOnly(Split(s, {'\n'})[i])
    ensures IntendedTagsOf(Str(s), letKeyOnly) == Err(ErrorValue(BadTagsFormat))
  {
    if s == "" {
      SplitOfSeparatorFree(s, {'\n'});
      assert false;
    }
  }

  /** As written, the guard never fires for a key-only line: `tags("zone")`
      gives `{ zone: "" }` whatever `letKeyOnly` is, where the intended
      reading throws. */
  lemma {:induction false} TagsAcceptKeyOnlyLine()
    ensures TagsOf(Str("zone")) == Ok(Some(map["zone" := ""]))
    ensures IntendedTagsOf(Str("zone"), Bool(false)) == Err(ErrorValue(BadTagsFormat))
  {
    SplitOfSeparatorFree("zone", {'\n'});
    TrimOfTrimmed("zone");
    SplitOfSeparatorFree("zone", {'='});
    assert TagEntry("zone") == Ok(("zone", ""));
    assert TagsFrom(map[], ["zone"]) == TagsFrom(map["zone" := ""], []);
    IntendedTagsRejectsKeyOnly("zone", Bool(false), 0);
  }

  // ---------------------------------------------------------------------
  // autocomplete and autocompleteOrArray
  // ---------------------------------------------------------------------

  /** Falsy gives undefined; an object gives its `id` (its `value` when
      `getVal` is truthy), falling back to the object itself; a scalar passes
      through. */
  function Autocomplete(value: Json, getVal: Json): (r: Option<Json>)
    ensures !Truthy(value) ==> r == None
    ensures Truthy(value) && !IsObject(value) ==> r == Some(value)
    ensures value.Arr? ==> r == Some(value)
    ensures value.Obj? ==>
              var field := Get(value.fields, if Truthy(getVal) then "value" else "id");
              r == Some(if Truthy(field) then field else value)
  {
    if !Truthy(value) then None
    else if value.Obj? then
      Some(OrElse(Get(value.fields, if Truthy(getVal) then "value" else "id"), value))
    else Some(value)
  }

  /** Falsy gives `[]`, an array is unchanged, an object gives `[id]` (or
      `[object]` without a truthy id), a scalar gives `[value]`. */
  function AutocompleteOrArray(value: Json): (r: Json)
    ensures r.Arr?
    ensures !Truthy(value) ==> r == Arr([])
    ensures value.Arr? ==> r == value
    ensures value.Obj? ==> r == Arr([Some(if Truthy(Get(value.fields, "id")) then Get(value.fields, "id") else value)])
    ensures Truthy(value) && !IsObject(value) ==> r == Arr([Some(value)])
  {
    if !Truthy(value) then Arr([])
    else if value.Arr? then value
    else if value.Obj? then Arr([Some(OrElse(Get(value.fields, "id"), value))])
    else Arr([Some(value)])
  }

  // ---------------------------------------------------------------------
  // jsonString and objectOrFromPath (outcomes only)
  // ---------------------------------------------------------------------

  /** Falsy gives undefined, an array or object is returned as is, a string
      is handed to the JSON parser (`parse`, returning the parser's error
      message on failure), anything else throws. */
  function JsonString(value: Json, parse: string -> Result<Json, string>): (r: Result<Option<Json>, Json>)
    ensures !Truthy(value) ==> r == Ok(None)
    ensures IsObject(value) ==> r == Ok(Some(value))
    ensures Truthy(value) && value.Str? && parse(value.s).Err? ==>
              r == Err(ErrorValue("Invalid JSON! " + parse(value.s).error))
    ensures r.Ok? && r.value.Some? && value.Str? ==> parse(value.s) == Ok(r.value.value)
    ensures Truthy(value) && !value.Str? && !IsObject(value) ==>
              r == Err(ErrorValue("Value " + ToJsString(value) + " is not an object"))
  {
    if !Truthy(value) then Ok(None)
    else if IsObject(value) then Ok(Some(value))
    else if value.Str? then
      match parse(value.s)
      case Err(msg) => Err(ErrorValue("Invalid JSON! " + msg))
      case Ok(v) => Ok(Some(v))
    else Err(ErrorValue(ValueText(value) + " is not an object"))
  }

  /** Falsy gives undefined; a string names a file (`exists`, `read` and
      `parse` stand for the filesystem and the JSON parser) whose content is
      parsed; an array or object is returned as is; anything else throws. */
  function ObjectOrFromPath(value: Json, exists_: string -> bool, read: string -> string,
                            parse: string -> Result<Json, string>): (r: Result<Option<Json>, Json>)
    ensures !Truthy(value) ==> r == Ok(None)
    ensures IsObject(value) ==> r == Ok(Some(value))
    ensures Truthy(value) && value.Str? && !exists_(value.s) ==>
              r == Err(ErrorValue("Couldn't find file '" + value.s + "'."))
    ensures Truthy(value) && value.Str? && exists_(value.s) && parse(read(value.s)).Err? ==>
              r == Err(ErrorValue("The file '" + value.s + "' doesn't contain a valid JSON."))
    ensures r.Ok? && r.value.Some? && value.Str? ==> exists_(value.s) && parse(read(value.s)) == Ok(r.value.value)
    ensures Truthy(value) && !value.Str? && !IsObject(value) ==>
              r == Err(ErrorValue("value " + ToJsString(value) + " is not a valid object or a file path"))
  {
    if !Truthy(value) then Ok(None)
    else if value.Str? then
      if !exists_(value.s) then Err(ErrorValue("Couldn't find file '" + value.s + "'."))
      else match parse(read(value.s))
        case Err(_) => Err(ErrorValue("The file '" + value.s + "' doesn't contain a valid JSON."))
        case Ok(v) => Ok(Some(v))
    else if IsObject(value) then Ok(Some(value))
    else Err(ErrorValue("value " + ToJsString(value) + " is not a valid object or a file path"))
  }
}
