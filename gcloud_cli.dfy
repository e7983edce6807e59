/** Scraping values out of the text the cluster-admin command line prints:
    the value after a tag (`token:`, `certificate-authority-data:`,
    `server:`) and the bearer token of a
    `Tokens:` line. */
module GcloudCli {
  import opened Wrappers
  import opened Strings
  import opened Values

  // ---------------------------------------------------------------------
  // extractTagValue
  // ---------------------------------------------------------------------

  /** `s.slice(start)`: a negative start counts back from the end. */
  function SliceFrom(s: string, start: int): (r: string)
    ensures 0 <= start <= |s| ==> r == s[start..]
    ensures start > |s| ==> r == ""
  {
    if start < 0 then (if |s| + start < 0 then s else s[|s| + start..])
    else if start > |s| then ""
    else s[start..]
  }

  /** The text after the first occurrence of `tag`, trimmed, up to the end
      of its first line. When `tag` does not occur, `indexOf` gives -1 and
      the slice starts at `|tag| - 1`. */
  function ExtractTagValue(result: string, tag: string): (r: string)
    ensures IsTrimmed(r)
    ensures Avoids(r, {'\n'})
  {
    FirstLine(Trim(SliceFrom(result, IndexOf(result, tag) + |tag|)))
  }

  /** The first line of `rest`, trimmed: `rest` itself when it has no line
      break, else the slice through the first break, trimmed. */
  function FirstLine(rest: string): (r: string)
    ensures IsTrimmed(rest) ==> IsTrimmed(r)
    ensures IsTrimmed(rest) ==> Avoids(r, {'\n'})
  {
    var end := IndexOf(rest, "\n");
    if end < 0 then
      NoNewline(rest);
      rest
    else
      LineOfFirstBreak(rest, end);
      Trim(rest[..end + 1])
  }

  lemma {:induction false} NoNewline(s: string)
    requires IndexOf(s, "\n") < 0
    ensures Avoids(s, {'\n'})
  {
    forall k | 0 <= k < |s| ensures s[k] != '\n' {
      assert !OccursAt(s, "\n", k);
      assert s[k..k + 1] == [s[k]];
    }
  }

  /** The slice through the first line break loses that break to trim. */
  lemma {:induction false} LineOfFirstBreak(rest: string, end: int)
    requires 0 <= end && end == IndexOf(rest, "\n")
    ensures Avoids(Trim(rest[..end + 1]), {'\n'})
  {
    var p := rest[..end + 1];
    forall m | 0 <= m < |p| - 1 ensures p[m] != '\n' {
      BeforeFirstBreak(rest, end, m);
    }
    TrimmedLine(p);
  }

  /** Trim removes a line break that can only be the last character. */
  lemma {:induction false} TrimmedLine(p: string)
    requires forall m :: 0 <= m < |p| - 1 ==> p[m] != '\n'
    ensures Avoids(Trim(p), {'\n'})
  {
    var i, j := TrimBounds(p);
    var t := Trim(p);
    assert |t| == j - i;
    forall k | 0 <= k < |t| ensures t[k] != '\n' {
      assert t[k] == p[i + k];
      if i + k == |p| - 1 {
        assert k == |t| - 1;
      }
    }
  }

  lemma {:induction false} BeforeFirstBreak(rest: string, end: int, m: int)
    requires 0 <= end && end == IndexOf(rest, "\n") && 0 <= m < end
    ensures rest[m] != '\n'
  {
    assert !OccursAt(rest, "\n", m);
    assert rest[m..m + 1] == [rest[m]];
  }

  /** `tag` first occurs in `s` at `k`. */
  predicate FirstAt(s: string, tag: string, k: nat) {
    OccursAt(s, tag, k) && forall j :: 0 <= j < k ==> !OccursAt(s, tag, j)
  }

  lemma {:induction false} IndexOfFirst(s: string, tag: string, k: nat)
    requires FirstAt(s, tag, k)
    ensures IndexOf(s, tag) == k
  {
  }

  /** The remainder after the first occurrence of the tag at `k`. */
  lemma {:induction false} ExtractTagValueAt(s: string, tag: string, k: nat)
    requires FirstAt(s, tag, k)
    ensures ExtractTagValue(s, tag) == FirstLine(Trim(s[k + |tag|..]))
  {
    IndexOfFirst(s, tag, k);
  }

  lemma {:induction false} FirstLineOfSingleLine(rest: string)
    requires Avoids(rest, {'\n'})
    ensures FirstLine(rest) == rest
  {
    forall j | 0 <= j ensures !OccursAt(rest, "\n", j) {
      if j + 1 <= |rest| {
        assert rest[j..j + 1] == [rest[j]];
      }
    }
    assert IndexOf(rest, "\n") == -1;
  }

  /** When no line break is left in the trimmed remainder after the tag, the
      whole remainder is the value. */
  lemma {:induction false} ExtractTagValueLastLine(s: string, tag: string, k: nat)
    requires FirstAt(s, tag, k)
    requires Avoids(Trim(s[k + |tag|..]), {'\n'})
    ensures ExtractTagValue(s, tag) == Trim(s[k + |tag|..])
  {
    ExtractTagValueAt(s, tag, k);
    FirstLineOfSingleLine(Trim(s[k + |tag|..]));
  }

  /** A trimmed text that starts with the line `v` and a break. */
  lemma {:induction false} FirstLineOfBrokenLine(t: string, v: string)
    requires |t| > |v| && t[..|v|] == v && t[|v|] == '\n'
    requires IsTrimmed(v) && Avoids(v, {'\n'})
    ensures FirstLine(t) == v
  {
    BreakAfterLine(t, v);
    TrimOfLineAndBreak(v);
    assert t[..|v| + 1] == v + "\n";
  }

  /** The first break of `t` is the one right after the line `v`. */
  lemma {:induction false} BreakAfterLine(t: string, v: string)
    requires |t| > |v| && t[..|v|] == v && t[|v|] == '\n'
    requires Avoids(v, {'\n'})
    ensures IndexOf(t, "\n") == |v|
  {
    assert OccursAt(t, "\n", |v|) by {
      assert t[|v|..|v| + 1] == "\n";
    }
    forall j | 0 <= j < |v| ensures !OccursAt(t, "\n", j) {
      assert t[j] == v[j];
      assert t[j..j + 1] == [t[j]];
    }
    IndexOfFirst(t, "\n", |v|);
  }

  lemma {:induction false} TrimOfLineAndBreak(v: string)
    requires IsTrimmed(v)
    ensures Trim(v + "\n") == v
  {
    var e: string := [];
    assert e + v + "\n" == v + "\n";
    assert AllWhitespace("\n") by {
      assert IsWhitespace('\n');
    }
    TrimOfPadded(e, v, "\n");
  }

  /** Trimming the end of `v + x`, where `v` ends in a non-space, keeps `v`. */
  lemma {:induction false} TrimEndKeeps(v: string, x: string)
    requires v != [] && !IsWhitespace(v[|v| - 1])
    ensures |TrimEnd(v + x)| >= |v| && TrimEnd(v + x)[..|v|] == v
  {
    var y := v + x;
    var t := TrimEnd(y);
    assert y[..|v|] == v;
  }

  lemma {:induction false} Regroup(a: string, b: string, c: string, d: string)
    ensures a + b + c + d == a + (b + (c + d))
  {
  }

  /** After the tag, any whitespace (line breaks included) and then a
      single-line value `v` ending its line: the value is `v`. */
  lemma {:induction false} ExtractTagValueOfLine(s: string, tag: string, k: nat, a: string, v: string, rest: string)
    requires FirstAt(s, tag, k)
    requires s[k + |tag|..] == a + v + "\n" + rest
    requires AllWhitespace(a) && v != "" && IsTrimmed(v) && Avoids(v, {'\n'})
    ensures ExtractTagValue(s, tag) == v
  {
    ExtractTagValueAt(s, tag, k);
    var x := v + ("\n" + rest);
    Regroup(a, v, "\n", rest);
    TrimStartOfPadded(a, x);
    TrimOfTrimStart(a + x);
    var t := TrimEnd(x);
    assert Trim(s[k + |tag|..]) == t;
    TrimEndKeeps(v, "\n" + rest);
    if |t| == |v| {
      assert t == v;
      FirstLineOfSingleLine(t);
    } else {
      assert t[|v|] == x[|v|] == '\n';
      FirstLineOfBrokenLine(t, v);
    }
  }

  /** A tag with nothing after it on its line: trimming the remainder first
      skips the line break, so the value read is the next line's. */
  lemma {:induction false} ExtractTagValueSkipsEmptyValue(s: string, tag: string, k: nat, v: string, rest: string)
    requires FirstAt(s, tag, k)
    requires s[k + |tag|..] == "\n" + v + "\n" + rest
    requires v != "" && IsTrimmed(v) && Avoids(v, {'\n'})
    ensures ExtractTagValue(s, tag) == v
  {
    assert IsWhitespace('\n');
    ExtractTagValueOfLine(s, tag, k, "\n", v, rest);
  }

  // ---------------------------------------------------------------------
  // extractSecret
  // ---------------------------------------------------------------------

  const TokensMarker: string := "Tokens:"

  /** The index of the first line that contains the marker, or -1. */
  function FirstTokenLine(lines: seq<string>, from: nat): (r: int)
    requires from <= |lines|
    ensures r == -1 || (from <= r < |lines| && Contains(lines[r], TokensMarker))
    ensures forall j :: from <= j < |lines| && (r == -1 || j < r) ==> !Contains(lines[j], TokensMarker)
    decreases |lines| - from
  {
    if from == |lines| then -1
    else if Contains(lines[from], TokensMarker) then from
    else FirstTokenLine(lines, from + 1)
  }

  /** `filter(Boolean)` on strings: the non-empty ones, in order. */
  function NonEmpty(words: seq<string>): (r: seq<string>)
    ensures forall i :: 0 <= i < |r| ==> r[i] != ""
    ensures forall w :: w != "" ==> multiset(r)[w] == multiset(words)[w]
    ensures |r| <= |words|
  {
    if words == [] then []
    else
      assert words == [words[0]] + words[1..];
      (if words[0] == "" then [] else [words[0]]) + NonEmpty(words[1..])
  }

  /** Filtering distributes over concatenation, so the kept words keep
      their order. */
  lemma {:induction false} NonEmptyAppend(a: seq<string>, b: seq<string>)
    ensures NonEmpty(a + b) == NonEmpty(a) + NonEmpty(b)
    decreases |a|
  {
    if a != [] {
      assert (a + b)[1..] == a[1..] + b;
      NonEmptyAppend(a[1..], b);
    } else {
      assert a + b == b;
    }
  }

  /** After empty words only, the first non-empty word leads the result. */
  lemma {:induction false} NonEmptyFirstWord(blanks: seq<string>, w: string, rest: seq<string>)
    requires forall i :: 0 <= i < |blanks| ==> blanks[i] == ""
    requires w != ""
    ensures NonEmpty(blanks + [w] + rest) == [w] + NonEmpty(rest)
  {
    NonEmptyAppend(blanks + [w], rest);
    NonEmptyAppend(blanks, [w]);
    NonEmptyOfBlanks(blanks);
    assert NonEmpty([w]) == [w] by { assert [w][1..] == []; }
  }

  lemma {:induction false} NonEmptyOfBlanks(blanks: seq<string>)
    requires forall i :: 0 <= i < |blanks| ==> blanks[i] == ""
    ensures NonEmpty(blanks) == []
    decreases |blanks|
  {
    if blanks != [] {
      NonEmptyOfBlanks(blanks[1..]);
    }
  }

  /** Some line holds the marker. */
  predicate HasMarker(lines: seq<string>) {
    exists i :: 0 <= i < |lines| && Contains(lines[i], TokensMarker)
  }

  const SplitOfUndefined: string := "Cannot read properties of undefined (reading 'split')"

  /** The second non-empty space-separated word of the first line holding
      `Tokens:` (undefined when the line has fewer words); when no line
      holds it, `find` gives undefined and reading `split` of it throws. */
  function ExtractSecret(result: string): (r: Result<Json, Json>)
    ensures r.Ok? <==> HasMarker(Split(result, {'\n'}))
    ensures r.Err? ==> r.error == TypeErrorValue(SplitOfUndefined)
    ensures r.Ok? ==> r.value.Undef? || (r.value.Str? && r.value.s != "" && Avoids(r.value.s, {' '}))
  {
    var lines := Split(result, {'\n'});
    var i := FirstTokenLine(lines, 0);
    if i < 0 then Err(TypeErrorValue(SplitOfUndefined))
    else
      assert HasMarker(lines) by { assert Contains(lines[i], TokensMarker); }
      var words := NonEmpty(Split(lines[i], {' '}));
      if |words| > 1 then
        NonEmptyAvoids(Split(lines[i], {' '}), ' ');
        Ok(Str(words[1]))
      else Ok(Undef)
  }

  lemma {:induction false} NonEmptyAvoids(words: seq<string>, c: char)
    requires forall i :: 0 <= i < |words| ==> Avoids(words[i], {c})
    ensures forall i :: 0 <= i < |NonEmpty(words)| ==> Avoids(NonEmpty(words)[i], {c})
  {
    if words != [] {
      NonEmptyAvoids(words[1..], c);
      var rest := NonEmpty(words[1..]);
      var r := NonEmpty(words);
      assert r == (if words[0] == "" then [] else [words[0]]) + rest;
    }
  }

  lemma {:induction false} MarkerLine(tok: string)
    requires tok != "" && Avoids(tok, {' '}) && Avoids(tok, {'\n'})
    ensures Contains(TokensMarker + " " + tok, TokensMarker)
    ensures Avoids(TokensMarker + " " + tok, {'\n'})
    ensures NonEmpty(Split(TokensMarker + " " + tok, {' '})) == [TokensMarker, tok]
  {
    var line := TokensMarker + " " + tok;
    assert line[0..|TokensMarker|] == TokensMarker;
    ContainsAt(line, TokensMarker, 0);
    assert Avoids(TokensMarker, {' '});
    SplitAtSeparator(TokensMarker, ' ', tok, {' '});
    SplitOfSeparatorFree(tok, {' '});
    assert Split(line, {' '}) == [TokensMarker, tok];
    assert NonEmpty([tok]) == [tok];
  }

  /** In the output lines `before + ["Tokens: <tok>"] + after`, where no
      earlier line holds the marker, the secret is `tok`. */
  lemma {:induction false} ExtractSecretOfTokenLine(before: seq<string>, tok: string, after: seq<string>)
    requires forall i :: 0 <= i < |before| ==> Avoids(before[i], {'\n'}) && !Contains(before[i], TokensMarker)
    requires forall i :: 0 <= i < |after| ==> Avoids(after[i], {'\n'})
    requires tok != "" && Avoids(tok, {' '}) && Avoids(tok, {'\n'})
    ensures ExtractSecret(Join(before + [TokensMarker + " " + tok] + after, "\n")) == Ok(Str(tok))
  {
    var line := TokensMarker + " " + tok;
    MarkerLine(tok);
    var lines := before + [line] + after;
    forall i | 0 <= i < |lines| ensures Avoids(lines[i], {'\n'}) {
      if i > |before| {
        assert lines[i] == after[i - |before| - 1];
      }
    }
    SplitJoin(lines, '\n');
    assert Split(Join(lines, "\n"), {'\n'}) == lines;
    var k := FirstTokenLine(lines, 0);
    assert lines[|before|] == line;
    assert k == |before|;
  }
}
