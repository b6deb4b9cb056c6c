/**
 * The direct-connection popup of the server switcher: the address check made
 * by the "Connect" button and the manager updates that follow an accepted
 * address.
 *
 * The check is a whole-string match against
 *
 *   ^(?!(?:https?|ftp):\/\/)(?:(?:[0-9]{1,3}\.){3}[0-9]{1,3}|(?:[a-zA-Z0-9-]+\.)+[a-zA-Z]{2,})(?::\d+)?$
 *
 * written here twice: as ghost predicates that follow the pattern piece by
 * piece (`MatchesPattern`), and as a one-pass scanner (`RegexMatch`) proved to
 * agree with them. Between the two sits the split of a host at its dots
 * (`Fields`), with its inverse `Join`.
 */
module DirectConnect {
  import opened Wrappers

  // ---------------------------------------------------------------------------
  // Character classes of the pattern
  // ---------------------------------------------------------------------------

  /** `[0-9]`, and also `\d`: an ECMAScript `std::regex` in the classic locale matches ASCII digits only. */
  predicate IsDigit(c: char) { '0' <= c <= '9' }

  /** `[a-zA-Z]` */
  predicate IsAlpha(c: char) { 'a' <= c <= 'z' || 'A' <= c <= 'Z' }

  /** `[a-zA-Z0-9-]` */
  predicate IsLabelChar(c: char) { IsAlpha(c) || IsDigit(c) || c == '-' }

  /** A character that may occur in the host part: a label character or a dot. */
  predicate IsHostChar(c: char) { IsLabelChar(c) || c == '.' }

  /** A character that may occur anywhere in an accepted address. */
  predicate IsAddressChar(c: char) { IsHostChar(c) || c == ':' }

  /** Every element of `s` satisfies `p`: every character is in a class, every field has a shape. */
  predicate All<T>(s: seq<T>, p: T -> bool)
  {
    forall i :: 0 <= i < |s| ==> p(s[i])
  }

  /** `[0-9]{1,3}` */
  predicate DigitGroup(g: string) { 1 <= |g| <= 3 && All(g, IsDigit) }

  /** `[a-zA-Z0-9-]+` */
  predicate Label(g: string) { 1 <= |g| && All(g, IsLabelChar) }

  /** `[a-zA-Z]{2,}` */
  predicate TopLevelLabel(g: string) { 2 <= |g| && All(g, IsAlpha) }

  /** `(?::\d+)?` */
  predicate OptionalPort(p: string)
  {
    p == [] || (2 <= |p| && p[0] == ':' && All(p[1..], IsDigit))
  }

  predicate StartsWith(s: string, prefix: string)
  {
    |prefix| <= |s| && s[..|prefix|] == prefix
  }

  /** The negative look-ahead `(?!(?:https?|ftp):\/\/)`: case-sensitive, as the pattern has no icase flag. */
  predicate SchemePrefixed(s: string)
  {
    StartsWith(s, "http://") || StartsWith(s, "https://") || StartsWith(s, "ftp://")
  }

  // ---------------------------------------------------------------------------
  // The pattern, piece by piece
  // ---------------------------------------------------------------------------

  /** `n` digit groups separated by single dots: `(?:[0-9]{1,3}\.){n-1}[0-9]{1,3}`. */
  ghost predicate DigitGroups(h: string, n: nat)
    decreases n
  {
    if n <= 1 then n == 1 && DigitGroup(h)
    else exists k {:trigger DigitGroups(h[k + 1..], n - 1)} ::
      0 < k < |h| && h[k] == '.' && DigitGroup(h[..k]) && DigitGroups(h[k + 1..], n - 1)
  }

  /** `(?:[0-9]{1,3}\.){3}[0-9]{1,3}` */
  ghost predicate DottedQuad(h: string)
  {
    DigitGroups(h, 4)
  }

  /** `(?:[a-zA-Z0-9-]+\.)+[a-zA-Z]{2,}`: a label and a dot, then either the top-level label or more of the same. */
  ghost predicate DomainName(h: string)
    decreases |h|
  {
    exists k {:trigger Label(h[..k])} :: 0 < k < |h| && h[k] == '.' && Label(h[..k]) &&
      (TopLevelLabel(h[k + 1..]) || DomainName(h[k + 1..]))
  }

  /** The alternation between the two host forms. */
  ghost predicate Host(h: string)
  {
    DottedQuad(h) || DomainName(h)
  }

  /** `std::regex_match(s, pattern)`: the whole of `s` matches. */
  ghost predicate MatchesPattern(s: string)
  {
    !SchemePrefixed(s) &&
    exists i {:trigger Host(s[..i])} :: 0 <= i <= |s| && Host(s[..i]) && OptionalPort(s[i..])
  }

  /** The connect handler's test: `!addr.empty() && regex_match(addr, pattern)`. */
  ghost predicate Accepted(s: string)
  {
    s != [] && MatchesPattern(s)
  }

  // ---------------------------------------------------------------------------
  // Dot-separated fields of a host
  // ---------------------------------------------------------------------------

  /** The pieces of `h` between its dots, in order; `h` without a dot is one field. */
  function Fields(h: string): (fs: seq<string>)
    ensures |fs| >= 1
    decreases |h|
  {
    if h == [] then [""]
    else
      var init := Fields(h[..|h| - 1]);
      if h[|h| - 1] == '.' then init + [""]
      else init[..|init| - 1] + [init[|init| - 1] + [h[|h| - 1]]]
  }

  /** The fields put back together with a dot between neighbours. */
  function Join(fs: seq<string>): (h: string)
    requires |fs| >= 1
    decreases |fs|
  {
    if |fs| == 1 then fs[0] else Join(fs[..|fs| - 1]) + "." + fs[|fs| - 1]
  }

  /** Four fields, each `[0-9]{1,3}`. */
  predicate QuadFields(fs: seq<string>)
  {
    |fs| == 4 && All(fs, DigitGroup)
  }

  /** At least two fields: labels, then a top-level label. */
  predicate DomainFields(fs: seq<string>)
  {
    |fs| >= 2 && All(fs[..|fs| - 1], Label) && TopLevelLabel(fs[|fs| - 1])
  }

  predicate HostFields(fs: seq<string>)
  {
    QuadFields(fs) || DomainFields(fs)
  }

  lemma AllSnoc<T>(s: seq<T>, x: T, p: T -> bool)
    ensures All(s + [x], p) <==> All(s, p) && p(x)
  {
    if All(s, p) && p(x) {
      forall i | 0 <= i < |s + [x]| ensures p((s + [x])[i]) {
        if i < |s| { assert (s + [x])[i] == s[i]; }
      }
    }
    if All(s + [x], p) {
      forall i | 0 <= i < |s| ensures p(s[i]) { assert (s + [x])[i] == s[i]; }
      assert (s + [x])[|s|] == x;
    }
  }

  lemma AllCons<T>(x: T, s: seq<T>, p: T -> bool)
    ensures All([x] + s, p) <==> p(x) && All(s, p)
  {
    if p(x) && All(s, p) {
      forall i | 0 <= i < |[x] + s| ensures p(([x] + s)[i]) {
        if i > 0 { assert ([x] + s)[i] == s[i - 1]; }
      }
    }
    if All([x] + s, p) {
      forall i | 0 <= i < |s| ensures p(s[i]) { assert ([x] + s)[i + 1] == s[i]; }
      assert ([x] + s)[0] == x;
    }
  }

  lemma {:induction false} FieldsWithoutDot(h: string)
    requires '.' !in h
    ensures Fields(h) == [h]
    decreases |h|
  {
    if h != [] {
      var init := h[..|h| - 1];
      assert h == init + [h[|h| - 1]];
      FieldsWithoutDot(init);
    }
  }

  /** `Fields` read one character at a time from the back. */
  lemma FieldsSnoc(h: string, x: char)
    ensures var fs := Fields(h);
      Fields(h + [x]) == if x == '.' then fs + [""] else fs[..|fs| - 1] + [fs[|fs| - 1] + [x]]
  {
    assert (h + [x])[..|h|] == h;
  }

  /** Splitting at a dot concatenates the fields of both sides. */
  lemma {:induction false} FieldsConcat(a: string, b: string)
    ensures Fields(a + "." + b) == Fields(a) + Fields(b)
    decreases |b|
  {
    if b == [] {
      assert a + "." + b == a + ['.'];
      FieldsSnoc(a, '.');
    } else {
      var b', x := b[..|b| - 1], b[|b| - 1];
      var left := a + "." + b';
      assert a + "." + b == left + [x] by { assert b == b' + [x]; }
      assert b == b' + [x];
      FieldsConcat(a, b');
      FieldsSnoc(left, x);
      FieldsSnoc(b', x);
      FieldListAppend(Fields(a), Fields(b'), x);
    }
  }

  /** The list shape behind `FieldsConcat`: appending to the last field commutes with prefixing fields. */
  lemma FieldListAppend(fa: seq<string>, g: seq<string>, x: char)
    requires |g| >= 1
    ensures var f := fa + g;
      f[..|f| - 1] + [f[|f| - 1] + [x]] == fa + (g[..|g| - 1] + [g[|g| - 1] + [x]])
    ensures (fa + g) + [""] == fa + (g + [""])
  {
    var f := fa + g;
    assert f[..|f| - 1] == fa + g[..|g| - 1];
  }

  /** No field holds a dot. */
  lemma {:induction false} FieldsHaveNoDot(h: string)
    ensures forall j :: 0 <= j < |Fields(h)| ==> '.' !in Fields(h)[j]
    decreases |h|
  {
    if h != [] {
      var init := h[..|h| - 1];
      assert h == init + [h[|h| - 1]];
      FieldsHaveNoDot(init);
      FieldsSnoc(init, h[|h| - 1]);
    }
  }

  /** `Join` undoes `Fields`. */
  lemma {:induction false} JoinFields(h: string)
    ensures Join(Fields(h)) == h
    decreases |h|
  {
    if h != [] {
      var init := h[..|h| - 1];
      var x := h[|h| - 1];
      assert h == init + [x];
      JoinFields(init);
      var fs := Fields(init);
      if x == '.' {
        assert (fs + [""])[..|fs|] == fs;
      } else {
        var fs' := fs[..|fs| - 1] + [fs[|fs| - 1] + [x]];
        if |fs| > 1 {
          assert fs'[..|fs'| - 1] == fs[..|fs| - 1];
        }
      }
    }
  }

  /** `Fields` undoes `Join` when no field holds a dot. */
  lemma {:induction false} FieldsJoin(fs: seq<string>)
    requires |fs| >= 1
    requires forall j :: 0 <= j < |fs| ==> '.' !in fs[j]
    ensures Fields(Join(fs)) == fs
    decreases |fs|
  {
    if |fs| == 1 {
      FieldsWithoutDot(fs[0]);
    } else {
      var init := fs[..|fs| - 1];
      FieldsJoin(init);
      FieldsConcat(Join(init), fs[|fs| - 1]);
      FieldsWithoutDot(fs[|fs| - 1]);
      assert init + [fs[|fs| - 1]] == fs;
    }
  }

  /** `Join` seen from the front. */
  lemma {:induction false} JoinFront(fs: seq<string>)
    requires |fs| >= 2
    ensures Join(fs) == fs[0] + "." + Join(fs[1..])
    decreases |fs|
  {
    if |fs| > 2 {
      var init := fs[..|fs| - 1];
      JoinFront(init);
      assert init[1..] == fs[1..][..|fs[1..]| - 1];
    }
  }

  /** Every character of a join of fields of class `p` is in `p` or is a dot. */
  lemma {:induction false} JoinChars(fs: seq<string>, p: char -> bool)
    requires |fs| >= 1
    requires forall j :: 0 <= j < |fs| ==> All(fs[j], p)
    requires p('.')
    ensures All(Join(fs), p)
    decreases |fs|
  {
    if |fs| > 1 {
      var init := fs[..|fs| - 1];
      JoinChars(init, p);
      var a, b := Join(init), fs[|fs| - 1];
      forall i | 0 <= i < |a + "." + b| ensures p((a + "." + b)[i]) {
        if i < |a| { assert (a + "." + b)[i] == a[i]; }
        else if i > |a| { assert (a + "." + b)[i] == b[i - |a| - 1]; }
      }
    }
  }

  /** A dot with no dot before it ends the first field. */
  lemma SplitAtDot(h: string, k: nat)
    requires k < |h| && h[k] == '.' && '.' !in h[..k]
    ensures Fields(h) == [h[..k]] + Fields(h[k + 1..])
  {
    assert h == h[..k] + "." + h[k + 1..];
    FieldsConcat(h[..k], h[k + 1..]);
    FieldsWithoutDot(h[..k]);
  }

  /** A field of shape `p` in front of fields of shape `p` gives fields of shape `p`. */
  lemma FirstFieldOfShape(h: string, k: nat, p: string -> bool)
    requires k < |h| && h[k] == '.' && All(h[..k], IsLabelChar)
    requires p(h[..k]) && All(Fields(h[k + 1..]), p)
    ensures |Fields(h)| == 1 + |Fields(h[k + 1..])| && All(Fields(h), p)
  {
    NoDotIn(h[..k], IsLabelChar);
    SplitAtDot(h, k);
    AllCons(h[..k], Fields(h[k + 1..]), p);
  }

  lemma NoDotIn(g: string, p: char -> bool)
    requires All(g, p) && !p('.')
    ensures '.' !in g
  {
  }

  /** The digit-group part of the pattern, read on fields. */
  lemma {:induction false} DigitGroupsToFields(h: string, n: nat)
    requires n >= 1
    ensures DigitGroups(h, n) ==> |Fields(h)| == n && All(Fields(h), DigitGroup)
    decreases n
  {
    if !DigitGroups(h, n) {
    } else if n == 1 {
      NoDotIn(h, IsDigit);
      FieldsWithoutDot(h);
    } else {
      var k :| 0 < k < |h| && h[k] == '.' && DigitGroup(h[..k]) && DigitGroups(h[k + 1..], n - 1);
      DigitGroupsToFields(h[k + 1..], n - 1);
      FirstFieldOfShape(h, k, DigitGroup);
    }
  }

  lemma FieldsToDigitGroups(h: string, n: nat)
    requires n >= 1 && |Fields(h)| == n && All(Fields(h), DigitGroup)
    ensures DigitGroups(h, n)
  {
    JoinFields(h);
    JoinToDigitGroups(Fields(h), n);
  }

  /** `n` digit groups joined by dots are `n` digit groups of the pattern. */
  lemma {:induction false} JoinToDigitGroups(fs: seq<string>, n: nat)
    requires n >= 1 && |fs| == n && All(fs, DigitGroup)
    ensures DigitGroups(Join(fs), n)
    decreases n
  {
    if n == 1 {
      assert DigitGroup(fs[0]);
    } else {
      var h := Join(fs);
      var k := JoinSplit(fs);
      assert fs == [fs[0]] + fs[1..];
      AllCons(fs[0], fs[1..], DigitGroup);
      JoinToDigitGroups(fs[1..], n - 1);
      DigitGroupsIntro(h, n, k);
    }
  }

  /** A join of two or more fields is its first field, a dot, and the join of the rest. */
  lemma JoinSplit(fs: seq<string>) returns (k: nat)
    requires |fs| >= 2
    ensures k == |fs[0]| && k < |Join(fs)| && Join(fs)[k] == '.'
    ensures Join(fs)[..k] == fs[0] && Join(fs)[k + 1..] == Join(fs[1..])
  {
    JoinFront(fs);
    k := |fs[0]|;
  }

  /** One digit group and a dot in front of `n - 1` groups make `n` groups. */
  lemma DigitGroupsIntro(h: string, n: nat, k: nat)
    requires n >= 2 && 0 < k < |h| && h[k] == '.' && DigitGroup(h[..k]) && DigitGroups(h[k + 1..], n - 1)
    ensures DigitGroups(h, n)
  {
    assert 0 < k < |h| && h[k] == '.' && DigitGroup(h[..k]) && DigitGroups(h[k + 1..], n - 1);
  }

  /** A label in front of domain fields gives domain fields. */
  lemma DomainFieldsCons(g: string, fr: seq<string>)
    requires Label(g) && DomainFields(fr)
    ensures DomainFields([g] + fr)
  {
    var fs := [g] + fr;
    assert fs[..|fs| - 1] == [g] + fr[..|fr| - 1];
    assert fs[|fs| - 1] == fr[|fr| - 1];
    AllCons(g, fr[..|fr| - 1], Label);
  }

  /** Domain fields are a label, then a top-level label or further domain fields. */
  lemma DomainFieldsSplit(fs: seq<string>)
    requires DomainFields(fs)
    ensures Label(fs[0])
    ensures |fs| == 2 ==> TopLevelLabel(fs[1])
    ensures |fs| > 2 ==> DomainFields(fs[1..])
  {
    var init := fs[..|fs| - 1];
    assert init == [fs[0]] + init[1..];
    AllCons(fs[0], init[1..], Label);
    if |fs| > 2 {
      assert fs[1..][..|fs[1..]| - 1] == init[1..];
      assert fs[1..][|fs[1..]| - 1] == fs[|fs| - 1];
    }
  }

  /** A label and a dot in front of a top-level label or a domain give a domain, read on fields. */
  lemma PrependLabel(h: string, k: nat)
    requires 0 < k < |h| && h[k] == '.' && Label(h[..k])
    requires TopLevelLabel(h[k + 1..]) || DomainFields(Fields(h[k + 1..]))
    ensures DomainFields(Fields(h))
  {
    var g, rest := h[..k], h[k + 1..];
    NoDotIn(g, IsLabelChar);
    SplitAtDot(h, k);
    if TopLevelLabel(rest) {
      NoDotIn(rest, IsAlpha);
      FieldsWithoutDot(rest);
      assert [g] + [rest] == [g, rest];
      assert [g, rest][..1] == [g];
      AllCons(g, [], Label);
    } else {
      DomainFieldsCons(g, Fields(rest));
    }
  }

  /** The domain part of the pattern, read on fields. */
  lemma {:induction false} DomainNameToFields(h: string)
    ensures DomainName(h) ==> DomainFields(Fields(h))
    decreases |h|
  {
    if DomainName(h) {
      var k :| 0 < k < |h| && h[k] == '.' && Label(h[..k]) &&
        (TopLevelLabel(h[k + 1..]) || DomainName(h[k + 1..]));
      DomainNameToFields(h[k + 1..]);
      PrependLabel(h, k);
    }
  }

  lemma FieldsToDomainName(h: string)
    requires DomainFields(Fields(h))
    ensures DomainName(h)
  {
    JoinFields(h);
    JoinToDomainName(Fields(h));
  }

  /** Domain fields joined by dots are a domain name of the pattern. */
  lemma {:induction false} JoinToDomainName(fs: seq<string>)
    requires DomainFields(fs)
    ensures DomainName(Join(fs))
    decreases |fs|
  {
    var h := Join(fs);
    var k := JoinSplit(fs);
    DomainFieldsSplit(fs);
    if |fs| == 2 {
      assert Join(fs[1..]) == fs[1];
    } else {
      JoinToDomainName(fs[1..]);
    }
    DomainNameIntro(h, k);
  }

  /** A label and a dot in front of a top-level label or a domain name make a domain name. */
  lemma DomainNameIntro(h: string, k: nat)
    requires 0 < k < |h| && h[k] == '.' && Label(h[..k])
    requires TopLevelLabel(h[k + 1..]) || DomainName(h[k + 1..])
    ensures DomainName(h)
  {
    assert 0 < k < |h| && h[k] == '.' && Label(h[..k]) && (TopLevelLabel(h[k + 1..]) || DomainName(h[k + 1..]));
  }

  /** Both host forms of the pattern, read on fields. */
  lemma HostIffFields(h: string)
    ensures Host(h) <==> HostFields(Fields(h))
  {
    DigitGroupsToFields(h, 4);
    if QuadFields(Fields(h)) { FieldsToDigitGroups(h, 4); }
    DomainNameToFields(h);
    if DomainFields(Fields(h)) { FieldsToDomainName(h); }
  }

  /** A host holds only label characters and dots, so in particular no `:`. */
  lemma HostChars(h: string)
    requires Host(h)
    ensures All(h, IsHostChar)
  {
    HostIffFields(h);
    var fs := Fields(h);
    forall j | 0 <= j < |fs| ensures All(fs[j], IsHostChar) {
      var f := fs[j];
      forall i | 0 <= i < |f| ensures IsHostChar(f[i]) {
        if QuadFields(fs) { assert IsDigit(f[i]); }
        else if j < |fs| - 1 { assert IsLabelChar(f[i]); }
        else { assert IsAlpha(f[i]); }
      }
    }
    JoinChars(fs, IsHostChar);
    JoinFields(h);
  }

  /** A host followed by a port can only end at the first `:`. */
  lemma HostEndsAtFirstColon(s: string, c: nat, i: nat)
    requires c <= |s| && (c < |s| ==> s[c] == ':')
    requires forall j :: 0 <= j < c ==> s[j] != ':'
    requires i <= |s| && All(s[..i], IsHostChar) && OptionalPort(s[i..])
    ensures i == c
  {
  }

  /**
   * The pattern has one way to match: the host ends at the first `:` (or at
   * the end when there is none), and the port takes the rest.
   */
  lemma MatchesAtFirstColon(s: string, c: nat)
    requires c <= |s| && (c < |s| ==> s[c] == ':')
    requires forall j :: 0 <= j < c ==> s[j] != ':'
    ensures MatchesPattern(s) <==> !SchemePrefixed(s) && HostFields(Fields(s[..c])) && OptionalPort(s[c..])
  {
    HostIffFields(s[..c]);
    if MatchesPattern(s) {
      var i :| 0 <= i <= |s| && Host(s[..i]) && OptionalPort(s[i..]);
      HostChars(s[..i]);
      HostEndsAtFirstColon(s, c, i);
    }
  }

  // ---------------------------------------------------------------------------
  // The scanner
  // ---------------------------------------------------------------------------

  /** What a one-pass scan remembers of the host read so far. */
  datatype HostScan = HostScan(
    fields: nat,       // number of fields so far
    curLen: nat,       // length of the field being read
    curDigits: bool,   // the field being read is all digits
    curAlpha: bool,    // ... all letters
    curLabel: bool,    // ... all label characters
    doneQuad: bool,    // every finished field is a digit group
    doneLabels: bool)  // every finished field is a label

  const StartScan := HostScan(1, 0, true, true, true, true, true)

  /** `st` is exactly what the scan should remember of the fields `fs`. */
  ghost predicate Summarises(fs: seq<string>, st: HostScan)
  {
    |fs| >= 1 &&
    var last := fs[|fs| - 1];
    st.fields == |fs| && st.curLen == |last| &&
    st.curDigits == All(last, IsDigit) && st.curAlpha == All(last, IsAlpha) &&
    st.curLabel == All(last, IsLabelChar) &&
    st.doneQuad == All(fs[..|fs| - 1], DigitGroup) &&
    st.doneLabels == All(fs[..|fs| - 1], Label)
  }

  /** The scan reads one more host character. */
  function Step(st: HostScan, x: char): HostScan
  {
    if x == '.' then
      HostScan(st.fields + 1, 0, true, true, true,
               st.doneQuad && 1 <= st.curLen <= 3 && st.curDigits,
               st.doneLabels && 1 <= st.curLen && st.curLabel)
    else
      st.(curLen := st.curLen + 1,
          curDigits := st.curDigits && IsDigit(x),
          curAlpha := st.curAlpha && IsAlpha(x),
          curLabel := st.curLabel && IsLabelChar(x))
  }

  /** The scan's verdict on the host it has read. */
  predicate HostOk(st: HostScan)
  {
    (st.fields == 4 && st.doneQuad && 1 <= st.curLen <= 3 && st.curDigits) ||
    (st.fields >= 2 && st.doneLabels && 2 <= st.curLen && st.curAlpha)
  }

  lemma StartSummarises()
    ensures Summarises(Fields(""), StartScan)
  {
  }

  /** `Step` keeps the scan's memory exact. */
  lemma StepSummarises(h: string, st: HostScan, x: char)
    requires Summarises(Fields(h), st)
    ensures Summarises(Fields(h + [x]), Step(st, x))
  {
    var fs := Fields(h);
    FieldsSnoc(h, x);
    if x == '.' {
      assert Fields(h + [x]) == fs + [""];
      StepDot(fs, st);
    } else {
      assert Fields(h + [x]) == fs[..|fs| - 1] + [fs[|fs| - 1] + [x]];
      StepOther(fs, st, x);
    }
  }

  /** `StepSummarises` for the next character of a string being scanned. */
  lemma StepAt(s: string, c: nat, st: HostScan)
    requires c < |s| && Summarises(Fields(s[..c]), st)
    ensures Summarises(Fields(s[..c + 1]), Step(st, s[c]))
  {
    assert s[..c + 1] == s[..c] + [s[c]];
    StepSummarises(s[..c], st, s[c]);
  }

  lemma StepDot(fs: seq<string>, st: HostScan)
    requires Summarises(fs, st)
    ensures Summarises(fs + [""], Step(st, '.'))
  {
    var last := fs[|fs| - 1];
    assert (fs + [""])[..|fs|] == fs == fs[..|fs| - 1] + [last];
    AllSnoc(fs[..|fs| - 1], last, DigitGroup);
    AllSnoc(fs[..|fs| - 1], last, Label);
  }

  lemma StepOther(fs: seq<string>, st: HostScan, x: char)
    requires Summarises(fs, st) && x != '.'
    ensures Summarises(fs[..|fs| - 1] + [fs[|fs| - 1] + [x]], Step(st, x))
  {
    var last := fs[|fs| - 1];
    var fs' := fs[..|fs| - 1] + [last + [x]];
    assert fs'[..|fs'| - 1] == fs[..|fs| - 1];
    AllSnoc(last, x, IsDigit);
    AllSnoc(last, x, IsAlpha);
    AllSnoc(last, x, IsLabelChar);
  }

  /** The scan's verdict is the pattern's verdict on the fields. */
  lemma HostOkIff(fs: seq<string>, st: HostScan)
    requires Summarises(fs, st)
    ensures HostOk(st) <==> HostFields(fs)
  {
  }

  /** What the scanner's two loops leave behind decides the match. */
  lemma ScanVerdict(s: string, c: nat, st: HostScan, portOk: bool)
    requires !SchemePrefixed(s)
    requires c <= |s| && (c < |s| ==> s[c] == ':')
    requires forall j :: 0 <= j < c ==> s[j] != ':'
    requires Summarises(Fields(s[..c]), st)
    requires portOk == (c == |s| || (c + 1 < |s| && All(s[c + 1..], IsDigit)))
    ensures (HostOk(st) && portOk) == MatchesPattern(s)
  {
    HostOkIff(Fields(s[..c]), st);
    MatchesAtFirstColon(s, c);
    if c < |s| {
      assert s[c..][1..] == s[c + 1..];
    }
  }

  /** Reads the host: every character up to the first `:`, or to the end when there is none. */
  method ScanHost(s: string) returns (c: nat, st: HostScan)
    ensures c <= |s| && (c < |s| ==> s[c] == ':')
    ensures forall j :: 0 <= j < c ==> s[j] != ':'
    ensures Summarises(Fields(s[..c]), st)
  {
    st := StartScan;
    StartSummarises();
    c := 0;
    while c < |s| && s[c] != ':'
      invariant c <= |s|
      invariant forall j :: 0 <= j < c ==> s[j] != ':'
      invariant Summarises(Fields(s[..c]), st)
    {
      StepAt(s, c, st);
      st := Step(st, s[c]);
      c := c + 1;
    }
  }

  /** Whether every character of `s` from index `from` on is a digit. */
  method DigitsFrom(s: string, from: nat) returns (digits: bool)
    requires from <= |s|
    ensures digits == All(s[from..], IsDigit)
  {
    digits := true;
    var j := from;
    while j < |s|
      invariant from <= j <= |s|
      invariant digits == All(s[from..j], IsDigit)
    {
      assert s[from..j + 1] == s[from..j] + [s[j]];
      AllSnoc(s[from..j], s[j], IsDigit);
      digits := digits && IsDigit(s[j]);
      j := j + 1;
    }
    assert s[from..j] == s[from..];
  }

  /** `std::regex_match(s, pattern)`, as one left-to-right pass over `s`. */
  method RegexMatch(s: string) returns (ok: bool)
    ensures ok == MatchesPattern(s)
  {
    if SchemePrefixed(s) {
      return false;
    }
    var c, st := ScanHost(s);
    // the port: nothing, or ':' and at least one digit up to the end
    var portOk := true;
    if c < |s| {
      var digits := DigitsFrom(s, c + 1);
      portOk := c + 1 < |s| && digits;
    }
    ok := HostOk(st) && portOk;
    ScanVerdict(s, c, st, portOk);
  }

  // ---------------------------------------------------------------------------
  // What the pattern accepts
  // ---------------------------------------------------------------------------

  /** `Join` of a field in front of further fields. */
  lemma JoinCons(g: string, fs: seq<string>)
    requires |fs| >= 1
    ensures Join([g] + fs) == g + "." + Join(fs)
  {
    JoinFront([g] + fs);
    assert ([g] + fs)[1..] == fs;
  }

  /** The last field is the end of the join. */
  lemma JoinEndsWithLast(fs: seq<string>)
    requires |fs| >= 1
    ensures |fs[|fs| - 1]| <= |Join(fs)|
    ensures Join(fs)[|Join(fs)| - |fs[|fs| - 1]|..] == fs[|fs| - 1]
  {
  }

  /** Joined label fields read back as the same fields and hold only host characters. */
  lemma HostPrefix(fs: seq<string>)
    requires |fs| >= 1
    requires forall j :: 0 <= j < |fs| ==> All(fs[j], IsLabelChar)
    ensures Fields(Join(fs)) == fs && All(Join(fs), IsHostChar)
  {
    forall j | 0 <= j < |fs| ensures All(fs[j], IsHostChar) && '.' !in fs[j] {
      NoDotIn(fs[j], IsLabelChar);
    }
    JoinChars(fs, IsHostChar);
    FieldsJoin(fs);
  }

  /** Address characters leave no room for `://`, hence for a scheme prefix. */
  lemma AddressCharsNoScheme(s: string)
    ensures All(s, IsAddressChar) ==> !SchemePrefixed(s)
  {
    if StartsWith(s, "http://") { assert s[5] == s[..7][5]; }
    if StartsWith(s, "https://") { assert s[6] == s[..8][6]; }
    if StartsWith(s, "ftp://") { assert s[4] == s[..6][4]; }
  }

  /** Label fields joined by dots, then a port part: the pattern matches exactly when the fields have a host shape and the port is well formed. */
  lemma MatchesFromFields(fs: seq<string>, port: string)
    requires |fs| >= 1
    requires forall j :: 0 <= j < |fs| ==> All(fs[j], IsLabelChar)
    requires All(port, IsAddressChar) && (port == [] || port[0] == ':')
    ensures MatchesPattern(Join(fs) + port) <==> HostFields(fs) && OptionalPort(port)
  {
    HostPrefix(fs);
    var h := Join(fs);
    HostThenPort(h, port);
    AddressCharsNoScheme(h + port);
    MatchesAtFirstColon(h + port, |h|);
  }

  /** Host characters followed by address characters: the first `:` is not before the join point. */
  lemma HostThenPort(h: string, port: string)
    requires All(h, IsHostChar) && All(port, IsAddressChar)
    ensures All(h + port, IsAddressChar)
    ensures forall j :: 0 <= j < |h| ==> (h + port)[j] != ':'
    ensures (h + port)[..|h|] == h && (h + port)[|h|..] == port
  {
    var s := h + port;
    forall j | 0 <= j < |s| ensures IsAddressChar(s[j]) && (j < |h| ==> s[j] != ':') {
      if j < |h| { assert s[j] == h[j]; } else { assert s[j] == port[j - |h|]; }
    }
  }

  /** A well-formed port part holds only address characters. */
  lemma PortChars(port: string)
    requires OptionalPort(port)
    ensures All(port, IsAddressChar)
  {
    forall j | 0 < j < |port| ensures IsDigit(port[j]) {
      assert port[j] == port[1..][j - 1];
    }
  }

  /** The regex alone already rejects the empty string, before the handler's own emptiness test. */
  lemma EmptyRejected()
    ensures !MatchesPattern("") && !Accepted("")
  {
    MatchesFromFields([""], "");
  }

  /** An accepted address uses only ASCII letters, digits, `.`, `-` and `:`. */
  lemma AcceptedChars(s: string)
    ensures MatchesPattern(s) ==> All(s, IsAddressChar)
  {
    if MatchesPattern(s) {
      var i := HostPortSplit(s);
      PortChars(s[i..]);
      HostThenPort(s[..i], s[i..]);
      assert s == s[..i] + s[i..];
    }
  }

  /**
   * No address containing `://` is accepted, so neither is one that starts
   * with `http://`, `https://` or `ftp://` in any mix of upper and lower case.
   */
  lemma SchemeSeparatorRejected(s: string, j: nat)
    requires j + 3 <= |s| && s[j..j + 3] == "://"
    ensures !MatchesPattern(s)
  {
    AcceptedChars(s);
    assert s[j + 1] == s[j..j + 3][1];
  }

  /** An accepted address holds at most one `:`, and does not end with one. */
  lemma AcceptedColons(s: string)
    requires MatchesPattern(s)
    ensures forall j1, j2 :: 0 <= j1 < j2 < |s| && s[j1] == ':' ==> s[j2] != ':'
    ensures s[|s| - 1] != ':'
  {
    var i := HostPortSplit(s);
    ColonsAtSplit(s, i);
  }

  /** Host characters up to `i` and a port part after it: the only `:` is at `i`, and it is not last. */
  lemma ColonsAtSplit(s: string, i: nat)
    requires i <= |s| && All(s[..i], IsHostChar) && OptionalPort(s[i..]) && |s| >= 1
    ensures forall j1, j2 :: 0 <= j1 < j2 < |s| && s[j1] == ':' ==> s[j2] != ':'
    ensures s[|s| - 1] != ':'
  {
    assert s == s[..i] + s[i..];
    ColonsOfHostThenPort(s[..i], s[i..]);
  }

  /** A matching address is host characters followed by a well-formed port part. */
  lemma HostPortSplit(s: string) returns (i: nat)
    requires MatchesPattern(s)
    ensures i <= |s| && All(s[..i], IsHostChar) && OptionalPort(s[i..]) && |s| >= 1
  {
    i :| 0 <= i <= |s| && Host(s[..i]) && OptionalPort(s[i..]);
    HostChars(s[..i]);
  }

  /** In a host followed by a port part, the only `:` is the one that starts the port. */
  lemma ColonsOfHostThenPort(h: string, port: string)
    requires All(h, IsHostChar) && OptionalPort(port) && |h + port| >= 1
    ensures forall j :: 0 <= j < |h + port| && (h + port)[j] == ':' ==> j == |h|
    ensures (h + port)[|h + port| - 1] != ':'
  {
    var s := h + port;
    forall j | 0 <= j < |s| && j != |h| ensures s[j] != ':' {
      if j < |h| {
        assert s[j] == h[j];
      } else {
        assert s[j] == port[1..][j - |h| - 1];
      }
    }
  }

  /** A host made of digits and dots only is never a domain name: its top-level label would need letters. */
  lemma NumericHostIsQuadOrNothing(h: string)
    requires forall j :: 0 <= j < |h| ==> IsDigit(h[j]) || h[j] == '.'
    ensures Host(h) <==> QuadFields(Fields(h))
  {
    HostIffFields(h);
    var fs := Fields(h);
    JoinFields(h);
    JoinEndsWithLast(fs);
    var last := fs[|fs| - 1];
    if |last| >= 1 {
      assert last[0] == h[|h| - |last|];
    }
  }

  /** `Join` of four fields. */
  lemma JoinFour(a: string, b: string, c: string, d: string)
    ensures Join([a, b, c, d]) == a + "." + b + "." + c + "." + d
  {
    assert [c] + [d] == [c, d] && [b] + [c, d] == [b, c, d] && [a] + [b, c, d] == [a, b, c, d];
    JoinCons(c, [d]);
    JoinCons(b, [c, d]);
    JoinCons(a, [b, c, d]);
  }

  /** Four digit groups of one to three digits, with no check of their value, and an optional port. */
  lemma DottedQuadMatches(s: string, a: string, b: string, c: string, d: string, port: string)
    requires DigitGroup(a) && DigitGroup(b) && DigitGroup(c) && DigitGroup(d)
    requires OptionalPort(port) && s == a + "." + b + "." + c + "." + d + port
    ensures Accepted(s)
  {
    var fs := [a, b, c, d];
    JoinFour(a, b, c, d);
    forall j | 0 <= j < 4 ensures All(fs[j], IsLabelChar) {
      assert All(fs[j], IsDigit);
    }
    PortChars(port);
    MatchesFromFields(fs, port);
    assert s == Join(fs) + port;
  }

  /** Labels of letters, digits and `-`, each followed by a dot, then a top-level label of two or more letters. */
  lemma DomainMatches(s: string, labels: seq<string>, tld: string, port: string)
    requires forall j :: 0 <= j < |labels| ==> Label(labels[j])
    requires |labels| >= 1 && TopLevelLabel(tld) && OptionalPort(port)
    requires s == Join(labels + [tld]) + port
    ensures Accepted(s)
  {
    var fs := labels + [tld];
    assert fs[..|fs| - 1] == labels;
    assert DomainFields(fs);
    PortChars(port);
    MatchesFromFields(fs, port);
  }

  /** Label fields and a port part that the pattern does not accept. */
  lemma FieldsRejected(s: string, fs: seq<string>, port: string)
    requires |fs| >= 1
    requires forall j :: 0 <= j < |fs| ==> All(fs[j], IsLabelChar)
    requires All(port, IsAddressChar) && (port == [] || port[0] == ':')
    requires s == Join(fs) + port && !(HostFields(fs) && OptionalPort(port))
    ensures !Accepted(s)
  {
    MatchesFromFields(fs, port);
  }

  // Concrete addresses

  /** `127.0.0.1:41001`, the input field's placeholder, is accepted. */
  lemma LoopbackWithPortAccepted()
    ensures Accepted("127.0.0.1:41001")
  {
    DottedQuadMatches("127.0.0.1:41001", "127", "0", "0", "1", ":41001");
  }

  /** `999.999.999.999` is accepted: the groups are not range-checked. */
  lemma OutOfRangeQuadAccepted()
    ensures Accepted("999.999.999.999")
  {
    DottedQuadMatches("999.999.999.999", "999", "999", "999", "999", "");
  }

  /** The port has no upper bound. */
  lemma LongPortAccepted()
    ensures Accepted("192.168.0.100:99999")
  {
    DottedQuadMatches("192.168.0.100:99999", "192", "168", "0", "100", ":99999");
  }

  /** `globed.example.com` is accepted. */
  lemma DomainAccepted()
    ensures Accepted("globed.example.com")
  {
    JoinCons("example", ["com"]);
    JoinCons("globed", ["example", "com"]);
    assert ["globed", "example"] + ["com"] == ["globed"] + ["example", "com"];
    DomainMatches("globed.example.com", ["globed", "example"], "com", "");
  }

  /** Five digit groups, and a group of four digits, are rejected. */
  lemma BadQuadsRejected()
    ensures !Accepted("1.2.3.4.5") && !Accepted("1234.1.1.1")
  {
    JoinFour("2", "3", "4", "5");
    assert ["1"] + ["2", "3", "4", "5"] == ["1", "2", "3", "4", "5"];
    JoinCons("1", ["2", "3", "4", "5"]);
    FieldsRejected("1.2.3.4.5", ["1", "2", "3", "4", "5"], "");
    JoinFour("1234", "1", "1", "1");
    assert !DigitGroup(["1234", "1", "1", "1"][0]);
    FieldsRejected("1234.1.1.1", ["1234", "1", "1", "1"], "");
  }

  /** A single label (`localhost`) and a one-letter top-level label (`a.b`) are rejected. */
  lemma BadDomainsRejected()
    ensures !Accepted("localhost") && !Accepted("a.b")
  {
    FieldsRejected("localhost", ["localhost"], "");
    JoinCons("a", ["b"]);
    FieldsRejected("a.b", ["a", "b"], "");
  }

  /** A `:` without digits after it is rejected. */
  lemma TrailingColonRejected()
    ensures !Accepted("127.0.0.1:")
  {
    JoinFour("127", "0", "0", "1");
    FieldsRejected("127.0.0.1:", ["127", "0", "0", "1"], ":");
  }

  /** A scheme prefix, and characters outside the pattern's classes, are rejected. */
  lemma OtherExamplesRejected()
    ensures !Accepted("http://127.0.0.1:41001") && !Accepted("not a valid host!!") && !Accepted("")
  {
    SchemeSeparatorRejected("http://127.0.0.1:41001", 4);
    AcceptedChars("not a valid host!!");
    assert !IsAddressChar("not a valid host!!"[3]);
  }

  /** `192.168.0.100:41001`, the address the handler actually validates, is accepted. */
  lemma HardcodedAddressAccepted()
    ensures Accepted(HardcodedAddress)
  {
    var a, b, c, d, port := "192", "168", "0", "100", ":41001";
    assert HardcodedAddress == a + "." + b + "." + c + "." + d + port;
    DottedQuadMatches(HardcodedAddress, a, b, c, d, port);
  }

  // ---------------------------------------------------------------------------
  // The Connect button
  // ---------------------------------------------------------------------------

  /** The address the handler validates in place of the input field's text. */
  const HardcodedAddress: string := "192.168.0.100:41001"

  /** A key of the game server list: the standalone server's own key, or a key of a listed server. */
  datatype ServerId = StandaloneId | ListedId(key: string)

  /** An entry of the game server list. */
  datatype GameServer = GameServer(name: string, address: string, region: string)

  /** What the handler does, in the order it does it. */
  datatype Effect =
    | InvalidAddressAlert
    | SetStandalone
    | MarkRecentlySwitched
    | ClearServers
    | AddServer(id: ServerId, server: GameServer)
    | SaveStandalone(address: string)
    | MarkPendingChanges
    | ConnectStandalone
    | ReloadList
    | ClosePopup
    | CloseSwitcher

  /** The effects of a connection to the standalone server at `addr`. */
  function ConnectEffects(addr: string): seq<Effect>
  {
    [SetStandalone, MarkRecentlySwitched, ClearServers,
     AddServer(StandaloneId, GameServer("Server", addr, "unknown")),
     SaveStandalone(addr), MarkPendingChanges, ConnectStandalone,
     ReloadList, ClosePopup, CloseSwitcher]
  }

  /**
   * The client state the handler touches: the central server manager's mode
   * and switch flag, the game server manager's list, saved standalone
   * address and pending-changes flag, and the effects performed so far.
   */
  class Client {
    var standalone: bool
    var recentlySwitched: bool
    var servers: map<ServerId, GameServer>
    var savedStandalone: Option<string>
    var pendingChanges: bool
    var effects: seq<Effect>

    /** `CentralServerManager::setStandalone`. */
    method SetStandaloneMode()
      modifies this
      ensures standalone && effects == old(effects) + [SetStandalone]
      ensures recentlySwitched == old(recentlySwitched) && servers == old(servers)
      ensures savedStandalone == old(savedStandalone) && pendingChanges == old(pendingChanges)
    {
      standalone := true;
      effects := effects + [SetStandalone];
    }

    /** `GameServerManager::clear`. */
    method ClearServerList()
      modifies this
      ensures servers == map[] && effects == old(effects) + [ClearServers]
      ensures standalone == old(standalone) && recentlySwitched == old(recentlySwitched)
      ensures savedStandalone == old(savedStandalone) && pendingChanges == old(pendingChanges)
    {
      servers := map[];
      effects := effects + [ClearServers];
    }

    /** `GameServerManager::addServer`: the entry under `id` is set, every other entry is kept. */
    method AddToServerList(id: ServerId, name: string, address: string, region: string)
      modifies this
      ensures servers == old(servers)[id := GameServer(name, address, region)]
      ensures effects == old(effects) + [AddServer(id, GameServer(name, address, region))]
      ensures standalone == old(standalone) && recentlySwitched == old(recentlySwitched)
      ensures savedStandalone == old(savedStandalone) && pendingChanges == old(pendingChanges)
    {
      servers := servers[id := GameServer(name, address, region)];
      effects := effects + [AddServer(id, GameServer(name, address, region))];
    }

    /** `GameServerManager::saveStandalone`. */
    method SaveStandaloneAddress(address: string)
      modifies this
      ensures savedStandalone == Some(address) && effects == old(effects) + [SaveStandalone(address)]
      ensures standalone == old(standalone) && recentlySwitched == old(recentlySwitched)
      ensures servers == old(servers) && pendingChanges == old(pendingChanges)
    {
      savedStandalone := Some(address);
      effects := effects + [SaveStandalone(address)];
    }

    /** The handler's work once `addr` is known to be valid, in the source's order. */
    method Connect(addr: string)
      modifies this
      ensures effects == old(effects) + ConnectEffects(addr)
      ensures standalone && recentlySwitched && pendingChanges
      ensures servers == map[StandaloneId := GameServer("Server", addr, "unknown")]
      ensures savedStandalone == Some(addr)
    {
      SetStandaloneMode();
      recentlySwitched := true;
      effects := effects + [MarkRecentlySwitched];
      ClearServerList();
      AddToServerList(StandaloneId, "Server", addr, "unknown");
      SaveStandaloneAddress(addr);
      pendingChanges := true;
      effects := effects + [MarkPendingChanges, ConnectStandalone, ReloadList, ClosePopup, CloseSwitcher];
    }

    /**
     * The Connect button's handler run on `addr`: an empty or non-matching
     * address raises an alert and changes nothing else; a valid one switches
     * to standalone mode, replaces the server list by the single standalone
     * entry, saves the address, starts the connection and closes both popups.
     */
    method OnConnect(addr: string) returns (accepted: bool)
      modifies this
      ensures accepted == Accepted(addr)
      ensures !accepted ==> effects == old(effects) + [InvalidAddressAlert]
      ensures !accepted ==> standalone == old(standalone) && recentlySwitched == old(recentlySwitched)
      ensures !accepted ==> servers == old(servers) && savedStandalone == old(savedStandalone)
      ensures !accepted ==> pendingChanges == old(pendingChanges)
      ensures accepted ==> effects == old(effects) + ConnectEffects(addr)
      ensures accepted ==> standalone && recentlySwitched && pendingChanges
      ensures accepted ==> servers == map[StandaloneId := GameServer("Server", addr, "unknown")]
      ensures accepted ==> savedStandalone == Some(addr)
    {
      accepted := false;
      if addr != [] {
        accepted := RegexMatch(addr);
      }
      if !accepted {
        effects := effects + [InvalidAddressAlert];
        return;
      }
      Connect(addr);
    }

    /**
     * The button as the source wires it: the input field's text is ignored
     * and the hard-coded address is validated, so every press connects to it.
     */
    method OnConnectPressed(fieldText: string) returns (accepted: bool)
      modifies this
      ensures accepted
      ensures standalone && recentlySwitched && pendingChanges
      ensures effects == old(effects) + ConnectEffects(HardcodedAddress)
      ensures servers == map[StandaloneId := GameServer("Server", HardcodedAddress, "unknown")]
      ensures savedStandalone == Some(HardcodedAddress)
    {
      HardcodedAddressAccepted();
      accepted := OnConnect(HardcodedAddress);
    }
  }
}
