/** Canonical phone numbers (digits only) and their grouped display form. */
module Phone {
  import opened Wrappers

  /** National digits of a country code are cut into these group sizes, left to right. */
  datatype Rule = Rule(code: string, groups: seq<nat>)

  // Longest codes first, as the formatter sorts them.
  const FORMAT_RULES: seq<Rule> := [
    Rule("971", [2, 3, 4]),
    Rule("966", [2, 3, 4]),
    Rule("965", [3, 4]),
    Rule("974", [4, 4]),
    Rule("973", [4, 4]),
    Rule("968", [4, 4]),
    Rule("44", [4, 6]),
    Rule("91", [5, 5]),
    Rule("92", [3, 7]),
    Rule("1", [3, 3, 4])
  ]

  predicate IsDigit(c: char) { '0' <= c <= '9' }

  predicate AllDigits(s: string) { forall i :: 0 <= i < |s| ==> IsDigit(s[i]) }

  function TextOf(raw: Option<string>): string {
    match raw
    case None => ""
    case Some(s) => s
  }

  /** The digits of s in order. */
  function DigitsOf(s: string): (d: string)
    ensures AllDigits(d) && |d| <= |s|
    ensures AllDigits(s) ==> d == s
  {
    if s == "" then "" else
    var head := if IsDigit(s[0]) then [s[0]] else "";
    head + DigitsOf(s[1..])
  }

  function Canonicalize(raw: Option<string>): string {
    DigitsOf(TextOf(raw))
  }

  /** The first rule whose code starts s. */
  function FindRule(rules: seq<Rule>, s: string): Option<Rule> {
    if rules == [] then None
    else if rules[0].code <= s then Some(rules[0])
    else FindRule(rules[1..], s)
  }

  function Min(a: nat, b: nat): nat { if a <= b then a else b }

  /** Cuts national into groups of the given sizes; what is left over is the final group. */
  function Groups(national: string, sizes: seq<nat>): (parts: seq<string>)
    decreases |sizes|
  {
    if sizes == [] then (if national == "" then [] else [national])
    else
      var n := Min(sizes[0], |national|);
      var head := if n == 0 then [] else [national[..n]];
      head + Groups(national[n..], sizes[1..])
  }

  function Join(parts: seq<string>): string {
    if parts == [] then ""
    else if |parts| == 1 then parts[0]
    else parts[0] + " " + Join(parts[1..])
  }

  function Flatten(parts: seq<string>): string {
    if parts == [] then "" else parts[0] + Flatten(parts[1..])
  }

  function DisplayParts(rule: Rule, canonical: string): seq<string>
    requires rule.code <= canonical
  {
    ["+" + rule.code] + Groups(canonical[|rule.code|..], rule.groups)
  }

  lemma {:induction false} FoundRuleMatches(rules: seq<Rule>, s: string)
    ensures FindRule(rules, s).Some? ==>
              FindRule(rules, s).value in rules && FindRule(rules, s).value.code <= s
    ensures FindRule(rules, s).None? <==> forall r :: r in rules ==> !(r.code <= s)
  {
    if rules != [] {
      FoundRuleMatches(rules[1..], s);
      assert forall r :: r in rules <==> r == rules[0] || r in rules[1..];
    }
  }

  function DisplayWith(rules: seq<Rule>, raw: Option<string>): string {
    var canonical := Canonicalize(raw);
    if canonical == "" then TextOf(raw)
    else
      match FindRule(rules, canonical)
      case None => "+" + canonical
      case Some(rule) =>
        FoundRuleMatches(rules, canonical);
        Join(DisplayParts(rule, canonical))
  }

  function Display(raw: Option<string>): string { DisplayWith(FORMAT_RULES, raw) }

  // Python's national[lo:hi], which clamps at the end of the string.
  function Slice(s: string, lo: nat, hi: nat): string
    requires lo <= hi
  {
    s[Min(lo, |s|)..Min(hi, |s|)]
  }

  function Sum(sizes: seq<nat>): nat {
    if sizes == [] then 0 else sizes[0] + Sum(sizes[1..])
  }

  /** The grouping loop: idx runs over the nominal group boundaries, past the end of a short number. */
  method FormatGroups(code: string, national: string, sizes: seq<nat>) returns (parts: seq<string>)
    ensures parts == ["+" + code] + Groups(national, sizes)
  {
    parts := ["+" + code];
    var idx: nat := 0;
    for i := 0 to |sizes|
      invariant parts + Groups(national[Min(idx, |national|)..], sizes[i..]) == ["+" + code] + Groups(national, sizes)
    {
      var rest := national[Min(idx, |national|)..];
      var chunk := Slice(national, idx, idx + sizes[i]);
      assert sizes[i..][1..] == sizes[i + 1..];
      assert chunk == rest[..Min(sizes[i], |rest|)];
      assert rest[Min(sizes[i], |rest|)..] == national[Min(idx + sizes[i], |national|)..];
      ghost var tail := Groups(national[Min(idx + sizes[i], |national|)..], sizes[i + 1..]);
      if chunk != "" {
        assert Groups(rest, sizes[i..]) == [chunk] + tail;
        assert parts + ([chunk] + tail) == (parts + [chunk]) + tail;
        parts := parts + [chunk];
      } else {
        assert Groups(rest, sizes[i..]) == [] + tail == tail;
      }
      idx := idx + sizes[i];
    }
    if idx < |national| {
      parts := parts + [national[idx..]];
    }
  }

  method FormatForDisplay(raw: Option<string>) returns (text: string)
    ensures text == Display(raw)
  {
    var canonical := Canonicalize(raw);
    if canonical == "" {
      return TextOf(raw);
    }
    for i := 0 to |FORMAT_RULES|
      invariant FindRule(FORMAT_RULES, canonical) == FindRule(FORMAT_RULES[i..], canonical)
    {
      var rule := FORMAT_RULES[i];
      assert FORMAT_RULES[i..][0] == rule && FORMAT_RULES[i..][1..] == FORMAT_RULES[i + 1..];
      if rule.code <= canonical {
        var parts := FormatGroups(rule.code, canonical[|rule.code|..], rule.groups);
        return Join(parts);
      }
    }
    return "+" + canonical;
  }

  // ------------------------------------------------------------ round trip

  lemma {:induction false} DigitsOfConcat(a: string, b: string)
    ensures DigitsOf(a + b) == DigitsOf(a) + DigitsOf(b)
  {
    if a == "" {
      assert a + b == b;
    } else {
      assert (a + b)[0] == a[0] && (a + b)[1..] == a[1..] + b;
      DigitsOfConcat(a[1..], b);
    }
  }

  lemma DigitsOfOne(c: char)
    ensures DigitsOf([c]) == if '0' <= c <= '9' then [c] else ""
  {
    assert [c][1..] == "";
  }

  lemma {:induction false} DigitsOfJoin(parts: seq<string>)
    ensures DigitsOf(Join(parts)) == DigitsOf(Flatten(parts))
  {
    if |parts| == 1 {
      assert Flatten(parts) == parts[0] + "" == parts[0];
    } else if |parts| > 1 {
      DigitsOfConcat(parts[0] + " ", Join(parts[1..]));
      DigitsOfConcat(parts[0], " ");
      DigitsOfConcat(parts[0], Flatten(parts[1..]));
      DigitsOfJoin(parts[1..]);
      assert DigitsOf(" ") == "";
    }
  }

  /** Grouping loses no digit and moves none. */
  lemma {:induction false} GroupsKeepDigits(national: string, sizes: seq<nat>)
    ensures Flatten(Groups(national, sizes)) == national
    decreases |sizes|
  {
    if sizes == [] {
      if national != "" { assert [national][1..] == [] && Flatten([national]) == national + ""; }
    } else {
      var n := Min(sizes[0], |national|);
      var rest := Groups(national[n..], sizes[1..]);
      GroupsKeepDigits(national[n..], sizes[1..]);
      assert national == national[..n] + national[n..];
      if n == 0 {
        assert [] + rest == rest && national[0..] == national;
      } else {
        assert ([national[..n]] + rest)[1..] == rest;
      }
    }
  }

  /** Every group is non-empty and all but the last have exactly their rule's size. */
  lemma {:induction false} GroupsShape(national: string, sizes: seq<nat>)
    requires forall i :: 0 <= i < |sizes| ==> sizes[i] > 0
    ensures var parts := Groups(national, sizes);
            && |parts| <= |sizes| + 1
            && (forall i :: 0 <= i < |parts| ==> parts[i] != "")
            && (forall i :: 0 <= i < |parts| - 1 ==> |parts[i]| == sizes[i])
            && (0 < |parts| <= |sizes| ==> |parts[|parts| - 1]| <= sizes[|parts| - 1])
    decreases |sizes|
  {
    if sizes != [] {
      var n := Min(sizes[0], |national|);
      var rest := Groups(national[n..], sizes[1..]);
      GroupsShape(national[n..], sizes[1..]);
      if n == 0 {
        NothingToGroup(sizes[1..]);
        assert national[n..] == "";
        assert rest == [] && Groups(national, sizes) == [] + rest;
      } else {
        var parts := [national[..n]] + rest;
        assert Groups(national, sizes) == parts;
        if n < sizes[0] { NothingToGroup(sizes[1..]); assert national[n..] == ""; }
        forall i | 0 <= i < |parts| ensures parts[i] != "" && (i < |parts| - 1 ==> |parts[i]| == sizes[i]) {
          if i > 0 {
            assert parts[i] == rest[i - 1];
            if i < |parts| - 1 { assert sizes[i] == sizes[1..][i - 1]; }
          }
        }
        if 0 < |rest| <= |sizes[1..]| {
          assert parts[|parts| - 1] == rest[|rest| - 1] && sizes[|parts| - 1] == sizes[1..][|rest| - 1];
        }
      }
    }
  }

  lemma {:induction false} NothingToGroup(sizes: seq<nat>)
    ensures Groups("", sizes) == []
  {
    if sizes != [] {
      assert ""[0..] == "";
      NothingToGroup(sizes[1..]);
    }
  }

  lemma DigitsOfParts(rule: Rule, canonical: string)
    requires rule.code <= canonical && AllDigits(canonical)
    ensures DigitsOf(Join(DisplayParts(rule, canonical))) == canonical
  {
    var national := canonical[|rule.code|..];
    var groups := Groups(national, rule.groups);
    var parts := DisplayParts(rule, canonical);
    DigitsOfJoin(parts);
    GroupsKeepDigits(national, rule.groups);
    assert parts[1..] == groups;
    assert Flatten(parts) == "+" + canonical by {
      assert canonical == rule.code + national;
      assert ("+" + rule.code) + national == "+" + (rule.code + national);
    }
    DigitsOfConcat("+", canonical);
    assert DigitsOf("+") == "";
  }

  /** Canonicalising what is displayed gives the canonical form of the input, for every input. */
  lemma CanonicalRoundTrip(rules: seq<Rule>, raw: Option<string>)
    ensures Canonicalize(Some(DisplayWith(rules, raw))) == Canonicalize(raw)
  {
    var canonical := Canonicalize(raw);
    if canonical != "" {
      FoundRuleMatches(rules, canonical);
      match FindRule(rules, canonical)
      case None =>
        DigitsOfConcat("+", canonical);
        assert DigitsOf("+") == "";
      case Some(rule) =>
        DigitsOfParts(rule, canonical);
    }
  }

  lemma DisplayIdempotent(raw: Option<string>)
    ensures Display(Some(Display(raw))) == Display(raw)
  {
    CanonicalRoundTrip(FORMAT_RULES, raw);
  }

  /** Two inputs are displayed alike only if they are the same number, and conversely. */
  lemma DisplaySeparatesNumbers(a: Option<string>, b: Option<string>)
    requires Canonicalize(a) != "" || Canonicalize(b) != ""
    ensures Display(a) == Display(b) <==> Canonicalize(a) == Canonicalize(b)
  {
    CanonicalRoundTrip(FORMAT_RULES, a);
    CanonicalRoundTrip(FORMAT_RULES, b);
  }

  // ------------------------------------------------------------ groups

  /** Where the i-th group starts. */
  function Start(sizes: seq<nat>, i: nat): nat
    requires i <= |sizes|
  {
    if i == 0 then 0 else sizes[0] + Start(sizes[1..], i - 1)
  }

  /** The i-th group, clamped to the digits there are; the one after the last rule size takes what is left. */
  function GroupAt(national: string, sizes: seq<nat>, i: nat): string
    requires i <= |sizes|
  {
    var from := Min(Start(sizes, i), |national|);
    if i == |sizes| then national[from..] else national[from..Min(from + sizes[i], |national|)]
  }

  lemma GroupAtRest(national: string, sizes: seq<nat>, i: nat)
    requires 0 < i <= |sizes| && sizes[0] <= |national|
    ensures GroupAt(national, sizes, i) == GroupAt(national[sizes[0]..], sizes[1..], i - 1)
  {
    var from := Min(Start(sizes[1..], i - 1), |national| - sizes[0]);
    assert sizes[0] + from == Min(Start(sizes, i), |national|);
    if i < |sizes| { assert sizes[1..][i - 1] == sizes[i]; }
  }

  /** There is an i-th group exactly when digits are left for it, and it is the stretch of digits the rule assigns. */
  lemma {:induction false} GroupsExactly(national: string, sizes: seq<nat>)
    requires forall i :: 0 <= i < |sizes| ==> sizes[i] > 0
    ensures var parts := Groups(national, sizes);
            && |parts| <= |sizes| + 1
            && (forall i :: 0 <= i <= |sizes| ==> (i < |parts| <==> Start(sizes, i) < |national|))
            && (forall i :: 0 <= i < |parts| ==> parts[i] == GroupAt(national, sizes, i))
    decreases |sizes|
  {
    var parts := Groups(national, sizes);
    if sizes != [] {
      if |national| < sizes[0] {
        ShortNumber(national, sizes);
      } else {
        var n := sizes[0];
        var rest := Groups(national[n..], sizes[1..]);
        GroupsExactly(national[n..], sizes[1..]);
        assert parts == [national[..n]] + rest;
        forall i | 0 <= i <= |sizes| ensures i < |parts| <==> Start(sizes, i) < |national| {
          if i > 0 { assert i - 1 < |rest| <==> Start(sizes[1..], i - 1) < |national[n..]|; }
        }
        forall i | 0 <= i < |parts| ensures parts[i] == GroupAt(national, sizes, i) {
          if i > 0 {
            assert parts[i] == rest[i - 1];
            GroupAtRest(national, sizes, i);
          }
        }
      }
    }
  }

  lemma ShortNumber(national: string, sizes: seq<nat>)
    requires sizes != [] && |national| < sizes[0]
    ensures Groups(national, sizes) == if national == "" then [] else [national]
    ensures national != "" ==> GroupAt(national, sizes, 0) == national
    ensures forall i :: 0 < i <= |sizes| ==> Start(sizes, i) > |national|
  {
    assert national[..|national|] == national && national[|national|..] == "";
    NothingToGroup(sizes[1..]);
  }

  /** Joining puts one space before every part but the first. */
  lemma {:induction false} JoinAppend(parts: seq<string>, last: string)
    requires parts != []
    ensures Join(parts + [last]) == Join(parts) + " " + last
  {
    var all := parts + [last];
    assert all[0] == parts[0] && all[1..] == parts[1..] + [last];
    if |parts| > 1 {
      JoinAppend(parts[1..], last);
    } else {
      assert all[1..] == [last] && parts[1..] == [];
    }
  }

  /** A number of a listed country is its code followed by its groups; any other number is only given its plus sign, and
      text without digits is left alone. */
  lemma DisplayExactly(raw: Option<string>)
    ensures var canonical := Canonicalize(raw);
            && (canonical == "" ==> Display(raw) == TextOf(raw))
            && (canonical != "" && (forall r :: r in FORMAT_RULES ==> !(r.code <= canonical)) ==> Display(raw) == "+" + canonical)
            && forall r :: r in FORMAT_RULES && r.code <= canonical && canonical != "" ==>
                 Display(raw) == Join(["+" + r.code] + Groups(canonical[|r.code|..], r.groups))
  {
    var canonical := Canonicalize(raw);
    FoundRuleMatches(FORMAT_RULES, canonical);
    CodesPrefixFree();
    forall r | r in FORMAT_RULES && r.code <= canonical && canonical != ""
      ensures Display(raw) == Join(["+" + r.code] + Groups(canonical[|r.code|..], r.groups))
    {
      var found := FindRule(FORMAT_RULES, canonical).value;
      assert found.code <= r.code || r.code <= found.code;
    }
  }

  lemma DisplayOf(r: Rule, national: string)
    requires r in FORMAT_RULES && AllDigits(r.code + national) && national != ""
    ensures Display(Some(r.code + national)) == Join(["+" + r.code] + Groups(national, r.groups))
  {
    var s := r.code + national;
    DisplayExactly(Some(s));
    assert r.code <= s && s[|r.code|..] == national;
  }

  lemma TwoGroups(national: string, a: nat, b: nat)
    requires |national| == a + b && a > 0 && b > 0
    ensures Groups(national, [a, b]) == [national[..a], national[a..]]
  {
    var sizes, rest := [a, b], national[a..];
    assert sizes[1..] == [b] && sizes[1..][1..] == [];
    assert rest[..b] == rest && rest[b..] == "";
    assert Groups(rest, [b]) == [rest] + Groups("", []);
    assert Groups(national, sizes) == [national[..a]] + Groups(rest, [b]);
  }

  lemma ThreeGroups(national: string, a: nat, b: nat, c: nat)
    requires |national| == a + b + c && a > 0 && b > 0 && c > 0
    ensures Groups(national, [a, b, c]) == [national[..a], national[a..a + b], national[a + b..]]
  {
    var sizes, rest := [a, b, c], national[a..];
    assert sizes[1..] == [b, c];
    TwoGroups(rest, b, c);
    assert rest[..b] == national[a..a + b] && rest[b..] == national[a + b..];
    assert Groups(national, sizes) == [national[..a]] + Groups(rest, [b, c]);
  }

  /** Full-length numbers of a country with two groups, and with three. */
  lemma TwoGroupNumber(r: Rule, n: string, a: nat, b: nat)
    requires r in FORMAT_RULES && AllDigits(r.code) && AllDigits(n)
    requires r.groups == [a, b] && |n| == a + b && a > 0 && b > 0
    ensures Formatted(r.code, n, [n[..a], n[a..]])
    ensures Display(Some(r.code + n)) == "+" + r.code + " " + n[..a] + " " + n[a..]
  {
    DisplayOf(r, n);
    TwoGroups(n, a, b);
    JoinThree("+" + r.code, n[..a], n[a..]);
  }

  lemma ThreeGroupNumber(r: Rule, n: string, a: nat, b: nat, c: nat)
    requires r in FORMAT_RULES && AllDigits(r.code) && AllDigits(n)
    requires r.groups == [a, b, c] && |n| == a + b + c && a > 0 && b > 0 && c > 0
    ensures Formatted(r.code, n, [n[..a], n[a..a + b], n[a + b..]])
    ensures Display(Some(r.code + n)) == "+" + r.code + " " + n[..a] + " " + n[a..a + b] + " " + n[a + b..]
  {
    DisplayOf(r, n);
    ThreeGroups(n, a, b, c);
    JoinFour("+" + r.code, n[..a], n[a..a + b], n[a + b..]);
  }

  lemma JoinThree(p: string, x: string, y: string)
    ensures Join([p] + [x, y]) == p + " " + x + " " + y
  {
    JoinAppend([p], x);
    JoinAppend([p] + [x], y);
    assert [p] + [x, y] == ([p] + [x]) + [y];
  }

  lemma JoinFour(p: string, x: string, y: string, z: string)
    ensures Join([p] + [x, y, z]) == p + " " + x + " " + y + " " + z
  {
    JoinThree(p, x, y);
    JoinAppend([p] + [x, y], z);
    assert [p] + [x, y, z] == ([p] + [x, y]) + [z];
  }

  /** The documented formats: the countries with two groups, and those with three. */
  lemma TwoGroupCountries(n: string)
    requires AllDigits(n)
    ensures |n| == 7 ==> Formatted("965", n, [n[..3], n[3..]])
    ensures |n| == 8 ==> Formatted("974", n, [n[..4], n[4..]])
    ensures |n| == 8 ==> Formatted("973", n, [n[..4], n[4..]])
    ensures |n| == 8 ==> Formatted("968", n, [n[..4], n[4..]])
    ensures |n| == 10 ==> Formatted("44", n, [n[..4], n[4..]])
    ensures |n| == 10 ==> Formatted("91", n, [n[..5], n[5..]])
    ensures |n| == 10 ==> Formatted("92", n, [n[..3], n[3..]])
  {
    if |n| == 7 {
      Listed(2, "965", [3, 4]);
      TwoGroupNumber(Rule("965", [3, 4]), n, 3, 4);
    } else if |n| == 8 {
      Listed(3, "974", [4, 4]);
      Listed(4, "973", [4, 4]);
      Listed(5, "968", [4, 4]);
      TwoGroupNumber(Rule("974", [4, 4]), n, 4, 4);
      TwoGroupNumber(Rule("973", [4, 4]), n, 4, 4);
      TwoGroupNumber(Rule("968", [4, 4]), n, 4, 4);
    } else if |n| == 10 {
      Listed(6, "44", [4, 6]);
      Listed(7, "91", [5, 5]);
      Listed(8, "92", [3, 7]);
      TwoGroupNumber(Rule("44", [4, 6]), n, 4, 6);
      TwoGroupNumber(Rule("91", [5, 5]), n, 5, 5);
      TwoGroupNumber(Rule("92", [3, 7]), n, 3, 7);
    }
  }

  lemma ThreeGroupCountries(n: string)
    requires AllDigits(n)
    ensures |n| == 9 ==> Formatted("971", n, [n[..2], n[2..5], n[5..]])
    ensures |n| == 9 ==> Formatted("966", n, [n[..2], n[2..5], n[5..]])
    ensures |n| == 10 ==> Formatted("1", n, [n[..3], n[3..6], n[6..]])
  {
    if |n| == 9 {
      Listed(0, "971", [2, 3, 4]);
      Listed(1, "966", [2, 3, 4]);
      ThreeGroupNumber(Rule("971", [2, 3, 4]), n, 2, 3, 4);
      ThreeGroupNumber(Rule("966", [2, 3, 4]), n, 2, 3, 4);
    } else if |n| == 10 {
      Listed(9, "1", [3, 3, 4]);
      ThreeGroupNumber(Rule("1", [3, 3, 4]), n, 3, 3, 4);
    }
  }

  /** The number is displayed as a plus sign, the code, and these groups, each after one space. */
  predicate Formatted(code: string, national: string, groups: seq<string>) {
    Display(Some(code + national)) == Join(["+" + code] + groups)
  }

  lemma Listed(i: nat, code: string, groups: seq<nat>)
    requires i < |FORMAT_RULES| && FORMAT_RULES[i] == Rule(code, groups)
    ensures Rule(code, groups) in FORMAT_RULES && AllDigits(code)
  {
    assert FORMAT_RULES[i] in FORMAT_RULES;
  }

  // ------------------------------------------------------------ spacing

  predicate SpaceFree(s: string) { forall i :: 0 <= i < |s| ==> s[i] != ' ' }

  /** No leading or trailing space and no two spaces in a row: every group between spaces has a digit. */
  predicate WellSpaced(s: string) {
    && s != "" && s[0] != ' ' && s[|s| - 1] != ' '
    && forall i :: 0 < i < |s| ==> s[i - 1] != ' ' || s[i] != ' '
  }

  lemma {:induction false} JoinWellSpaced(parts: seq<string>)
    requires parts != [] && Spaceable(parts)
    ensures WellSpaced(Join(parts))
  {
    if |parts| > 1 {
      JoinWellSpaced(parts[1..]);
      var head, tail := parts[0], Join(parts[1..]);
      var s := head + " " + tail;
      assert Join(parts) == s;
      forall i | 0 < i < |s| ensures s[i - 1] != ' ' || s[i] != ' ' {
        if i < |head| { assert s[i] == head[i]; }
        else if i == |head| { assert s[i - 1] == head[i - 1]; }
        else {
          assert s[i] == tail[i - |head| - 1];
          if i > |head| + 1 { assert s[i - 1] == tail[i - |head| - 2]; }
        }
      }
      assert s[|s| - 1] == tail[|tail| - 1];
      assert s[0] == head[0];
    }
  }

  predicate Spaceable(parts: seq<string>) {
    forall i :: 0 <= i < |parts| ==> |parts[i]| > 0 && SpaceFree(parts[i])
  }

  lemma {:induction false} GroupsSpaceFree(national: string, sizes: seq<nat>)
    requires SpaceFree(national)
    ensures Spaceable(Groups(national, sizes))
    decreases |sizes|
  {
    if sizes != [] {
      var n := Min(sizes[0], |national|);
      GroupsSpaceFree(national[n..], sizes[1..]);
    }
  }

  lemma DisplayWellSpaced(rules: seq<Rule>, raw: Option<string>)
    requires Canonicalize(raw) != ""
    ensures WellSpaced(DisplayWith(rules, raw)) && DisplayWith(rules, raw)[0] == '+'
  {
    var canonical := Canonicalize(raw);
    FoundRuleMatches(rules, canonical);
    match FindRule(rules, canonical)
    case None =>
    case Some(rule) =>
      GroupsSpaceFree(canonical[|rule.code|..], rule.groups);
      var parts := DisplayParts(rule, canonical);
      assert parts[0] == "+" + rule.code;
      forall i | 0 <= i < |parts[0]| ensures parts[0][i] != ' ' {
        if i > 0 { assert parts[0][i] == canonical[i - 1]; }
      }
      assert parts[1..] == Groups(canonical[|rule.code|..], rule.groups);
      forall i | 0 <= i < |parts| ensures |parts[i]| > 0 && SpaceFree(parts[i]) {
        if i > 0 { assert parts[i] == parts[1..][i - 1]; }
      }
      JoinWellSpaced(parts);
      assert Join(parts)[0] == parts[0][0];
  }

  // ------------------------------------------------------------ rule order

  predicate PrefixFree(rules: seq<Rule>) {
    forall i, j :: 0 <= i < |rules| && 0 <= j < |rules| && rules[i].code <= rules[j].code ==> rules[i] == rules[j]
  }

  lemma CodesPrefixFree()
    ensures PrefixFree(FORMAT_RULES)
  {
    forall i, j | 0 <= i < |FORMAT_RULES| && 0 <= j < |FORMAT_RULES| && i != j
      ensures !(FORMAT_RULES[i].code <= FORMAT_RULES[j].code)
    {
      var a, b := FORMAT_RULES[i].code, FORMAT_RULES[j].code;
      if |a| <= |b| {
        assert a[0] != b[0] || a[1] != b[1] || a[2] != b[2];
      }
    }
  }

  /** Two codes that both start the same number are one a prefix of the other, so at most one rule applies. */
  lemma RuleOrderIrrelevant(rules: seq<Rule>, s: string)
    requires forall r :: r in rules <==> r in FORMAT_RULES
    ensures FindRule(rules, s) == FindRule(FORMAT_RULES, s)
  {
    FoundRuleMatches(rules, s);
    FoundRuleMatches(FORMAT_RULES, s);
    CodesPrefixFree();
    if FindRule(rules, s).Some? && FindRule(FORMAT_RULES, s).Some? {
      var a, b := FindRule(rules, s).value, FindRule(FORMAT_RULES, s).value;
      assert a.code <= b.code || b.code <= a.code;
    }
  }

  lemma DisplayIgnoresRuleOrder(rules: seq<Rule>, raw: Option<string>)
    requires forall r :: r in rules <==> r in FORMAT_RULES
    ensures DisplayWith(rules, raw) == Display(raw)
  {
    RuleOrderIrrelevant(rules, Canonicalize(raw));
  }
}
