// Tool names a provider accepts (grain-ai-agent-headless/src/tool_names.rs): a raw name is
// reduced to letters, digits and single inner underscores, and a list of names is made
// distinct by numbering those that come out equal, with the numbers printed in decimal.
module ToolNames {
  import opened Timestamps

  predicate IsAlphanumeric(c: char) { 'a' <= c <= 'z' || 'A' <= c <= 'Z' || '0' <= c <= '9' }

  predicate IsWordChar(c: char) { IsAlphanumeric(c) || c == '_' }

  // --- Names over letters, digits and single inner underscores ---

  predicate HasPair(s: string) { exists i :: 0 <= i < |s| - 1 && s[i] == '_' && s[i + 1] == '_' }

  predicate IsSafe(s: string) {
    && s != []
    && (forall i :: 0 <= i < |s| ==> IsWordChar(s[i]))
    && !HasPair(s)
    && s[0] != '_' && s[|s| - 1] != '_'
  }

  function WordChars(raw: string): (s: string) {
    seq(|raw|, i requires 0 <= i < |raw| => if IsWordChar(raw[i]) then raw[i] else '_')
  }

  // Every run of underscores made one.
  function Collapsed(s: string): string {
    if s == [] then []
    else if |s| > 1 && s[0] == '_' && s[1] == '_' then Collapsed(s[1..])
    else [s[0]] + Collapsed(s[1..])
  }

  // One pass of replacing "__" by "_", from the left and without overlaps.
  function Halved(s: string): string {
    if s == [] then []
    else if |s| > 1 && s[0] == '_' && s[1] == '_' then "_" + Halved(s[2..])
    else [s[0]] + Halved(s[1..])
  }

  function TrimStart(s: string): string {
    if s != [] && s[0] == '_' then TrimStart(s[1..]) else s
  }

  function TrimEnd(s: string): string {
    if s != [] && s[|s| - 1] == '_' then TrimEnd(s[..|s| - 1]) else s
  }

  function SafeName(raw: string): string {
    var name := TrimEnd(TrimStart(Collapsed(WordChars(raw))));
    if name == [] then "tool" else name
  }

  lemma {:induction false} HalvedIs(s: string)
    ensures |Halved(s)| <= |s| && (HasPair(s) ==> |Halved(s)| < |s|)
    ensures s != [] ==> Halved(s) != [] && Halved(s)[0] == s[0]
    ensures Collapsed(Halved(s)) == Collapsed(s)
    decreases |s|
  {
    if s != [] {
      if |s| > 1 && s[0] == '_' && s[1] == '_' {
        var t := s[2..];
        HalvedIs(t);
        assert s[1..][1..] == t;
        assert ("_" + Halved(t))[1..] == Halved(t);
      } else {
        HalvedIs(s[1..]);
        assert ([s[0]] + Halved(s[1..]))[1..] == Halved(s[1..]);
        if HasPair(s) {
          var i :| 0 <= i < |s| - 1 && s[i] == '_' && s[i + 1] == '_';
          assert s[1..][i - 1] == '_' && s[1..][i] == '_';
        }
      }
    }
  }

  lemma {:induction false} CollapsedIs(s: string)
    requires forall i :: 0 <= i < |s| ==> IsWordChar(s[i])
    ensures forall i :: 0 <= i < |Collapsed(s)| ==> IsWordChar(Collapsed(s)[i])
    ensures !HasPair(Collapsed(s))
    ensures s != [] ==> Collapsed(s) != [] && Collapsed(s)[0] == s[0]
    ensures !HasPair(s) ==> Collapsed(s) == s
    decreases |s|
  {
    if s != [] {
      CollapsedIs(s[1..]);
      assert forall i :: 0 <= i < |s[1..]| - 1 && s[1..][i] == '_' && s[1..][i + 1] == '_' ==> s[i + 1] == '_' && s[i + 2] == '_';
    }
  }

  lemma {:induction false} TrimmedIs(s: string)
    requires !HasPair(s) && forall i :: 0 <= i < |s| ==> IsWordChar(s[i])
    ensures var t := TrimEnd(TrimStart(s)); t == [] || IsSafe(t)
    ensures IsSafe(s) ==> TrimEnd(TrimStart(s)) == s
  {
    if s != [] && s[0] == '_' {
      var t := s[1..];
      assert TrimStart(t) == t;
      assert forall i :: 0 <= i < |t| - 1 && t[i] == '_' && t[i + 1] == '_' ==> s[i + 1] == '_' && s[i + 2] == '_';
      EndTrimmed(t);
    } else {
      EndTrimmed(s);
    }
  }

  lemma EndTrimmed(s: string)
    requires !HasPair(s) && (forall i :: 0 <= i < |s| ==> IsWordChar(s[i])) && (s != [] ==> s[0] != '_')
    ensures TrimEnd(s) == [] || IsSafe(TrimEnd(s))
  {
    if s != [] && s[|s| - 1] == '_' {
      var t := s[..|s| - 1];
      assert TrimEnd(t) == t;
      assert forall i :: 0 <= i < |t| - 1 && t[i] == '_' && t[i + 1] == '_' ==> s[i] == '_' && s[i + 1] == '_';
    }
  }

  lemma SafeNameIsSafe()
    ensures forall raw :: IsSafe(SafeName(raw))
  {
    forall raw
      ensures IsSafe(SafeName(raw))
    {
      CollapsedIs(WordChars(raw));
      TrimmedIs(Collapsed(WordChars(raw)));
    }
  }

  // A name is left alone exactly when it is safe already, so making it safe twice is
  // making it safe once.
  lemma SafeNameFixedIff(raw: string)
    ensures SafeName(raw) == raw <==> IsSafe(raw)
    ensures SafeName(SafeName(raw)) == SafeName(raw)
  {
    SafeNameIsSafe();
    SafeStays(SafeName(raw));
    if IsSafe(raw) {
      SafeStays(raw);
    }
  }

  // The letters and digits, in order.
  function Kept(s: string): string {
    if s == [] then [] else (if IsAlphanumeric(s[0]) then [s[0]] else []) + Kept(s[1..])
  }

  lemma {:induction false} KeptAppend(a: string, b: string)
    ensures Kept(a + b) == Kept(a) + Kept(b)
    decreases |a|
  {
    if a == [] {
      assert a + b == b;
    } else {
      var head := if IsAlphanumeric(a[0]) then [a[0]] else [];
      assert (a + b)[0] == a[0] && (a + b)[1..] == a[1..] + b;
      KeptAppend(a[1..], b);
      assert head + (Kept(a[1..]) + Kept(b)) == head + Kept(a[1..]) + Kept(b);
    }
  }

  lemma {:induction false} KeptByWordChars(s: string)
    ensures Kept(WordChars(s)) == Kept(s)
    decreases |s|
  {
    if s != [] {
      assert WordChars(s)[1..] == WordChars(s[1..]);
      KeptByWordChars(s[1..]);
    }
  }

  lemma {:induction false} KeptByCollapsing(s: string)
    ensures Kept(Collapsed(s)) == Kept(s)
    decreases |s|
  {
    if s != [] {
      KeptByCollapsing(s[1..]);
      assert ([s[0]] + Collapsed(s[1..]))[1..] == Collapsed(s[1..]);
    }
  }

  lemma {:induction false} KeptByTrimming(s: string)
    ensures Kept(TrimStart(s)) == Kept(s) && Kept(TrimEnd(s)) == Kept(s)
    decreases |s|
  {
    if s != [] {
      if s[0] == '_' {
        KeptByTrimming(s[1..]);
      }
      var front, last := s[..|s| - 1], s[|s| - 1];
      if last == '_' {
        KeptByTrimming(front);
        KeptAppend(front, [last]);
        assert s == front + [last] && Kept([last]) == [];
      }
    }
  }

  // A safe name holds exactly the letters and digits of the raw one, in order; one that has
  // none becomes "tool".
  lemma SafeNameKeeps(raw: string)
    ensures if Kept(raw) == [] then SafeName(raw) == "tool" else Kept(SafeName(raw)) == Kept(raw)
  {
    var collapsed := Collapsed(WordChars(raw));
    KeptByWordChars(raw);
    KeptByCollapsing(WordChars(raw));
    KeptByTrimming(collapsed);
    KeptByTrimming(TrimStart(collapsed));
    CollapsedIs(WordChars(raw));
    TrimmedIs(collapsed);
  }

  lemma SafeStays(s: string)
    requires IsSafe(s)
    ensures SafeName(s) == s
  {
    assert WordChars(s) == s;
    CollapsedIs(s);
    TrimmedIs(s);
  }

  method ProviderSafeToolName(raw: string) returns (name: string)
    ensures name == SafeName(raw)
  {
    var out := "";
    for i := 0 to |raw|
      invariant out == WordChars(raw)[..i]
    {
      out := out + [if IsWordChar(raw[i]) then raw[i] else '_'];
    }
    assert out == WordChars(raw);
    while HasPair(out)
      invariant Collapsed(out) == Collapsed(WordChars(raw))
      invariant forall i :: 0 <= i < |out| ==> IsWordChar(out[i])
      decreases |out|
    {
      HalvedIs(out);
      HalvedWords(out);
      out := Halved(out);
    }
    CollapsedIs(out);
    out := TrimEnd(TrimStart(out));
    return if out == [] then "tool" else out;
  }

  lemma {:induction false} HalvedWords(s: string)
    requires forall i :: 0 <= i < |s| ==> IsWordChar(s[i])
    ensures forall i :: 0 <= i < |Halved(s)| ==> IsWordChar(Halved(s)[i])
    decreases |s|
  {
    if s != [] {
      if |s| > 1 && s[0] == '_' && s[1] == '_' {
        HalvedWords(s[2..]);
      } else {
        HalvedWords(s[1..]);
      }
    }
  }

  // --- Unique names ---

  function Suffixed(base: string, k: nat): string { base + "_" + Pad(k, 1) }

  lemma SuffixInjective(base: string, j: nat, k: nat)
    requires Suffixed(base, j) == Suffixed(base, k)
    ensures j == k
  {
    var n := |base| + 1;
    assert Suffixed(base, j)[n..] == Pad(j, 1) && Suffixed(base, k)[n..] == Pad(k, 1);
    PadParses(j, 1);
    PadParses(k, 1);
  }

  // The base itself if it is free, otherwise the first free number from 2.
  ghost predicate IsUniqueName(base: string, used: set<string>, name: string) {
    && name !in used
    && if base !in used then name == base
       else exists k :: k >= 2 && name == Suffixed(base, k) && forall j :: 2 <= j < k ==> Suffixed(base, j) in used
  }

  lemma SubsetNoLarger(a: set<string>, b: set<string>)
    requires a <= b
    ensures |a| <= |b|
  {
    assert b == a + (b - a);
  }

  // Terminates because the numbers tried so far are that many different used names.
  method MakeUniqueToolName(base: string, used: set<string>) returns (name: string, now: set<string>)
    ensures IsUniqueName(base, used, name) && now == used + {name}
  {
    if base !in used {
      return base, used + {base};
    }
    var idx := 2;
    ghost var tried: set<string> := {};
    while Suffixed(base, idx) in used
      invariant idx >= 2
      invariant forall j :: 2 <= j < idx ==> Suffixed(base, j) in used
      invariant tried <= used && |tried| == idx - 2
      invariant forall s :: s in tried ==> exists j :: 2 <= j < idx && s == Suffixed(base, j)
      decreases |used| - (idx - 2)
    {
      var candidate := Suffixed(base, idx);
      assert candidate !in tried by {
        if candidate in tried {
          var j :| 2 <= j < idx && candidate == Suffixed(base, j);
          SuffixInjective(base, j, idx);
        }
      }
      SubsetNoLarger(tried + {candidate}, used);
      tried := tried + {candidate};
      idx := idx + 1;
    }
    name := Suffixed(base, idx);
    now := used + {name};
  }

  lemma SuffixedIsSafe(base: string, k: nat)
    requires IsSafe(base)
    ensures IsSafe(Suffixed(base, k))
  {
    var digits, name := Pad(k, 1), Suffixed(base, k);
    PadParses(k, 1);
    assert forall i :: 0 <= i < |digits| ==> IsDigit(digits[i]);
    forall i | 0 <= i < |name|
      ensures IsWordChar(name[i])
      ensures i > |base| ==> name[i] != '_'
      ensures i < |base| ==> name[i] == base[i]
    {
      if i > |base| {
        assert name[i] == digits[i - |base| - 1];
      }
    }
    assert base[|base| - 1] != '_';
    forall i | 0 <= i < |name| - 1 && name[i] == '_'
      ensures name[i + 1] != '_'
    {
      if i < |base| - 1 {
        assert base[i] == '_' && base[i + 1] == name[i + 1];
      }
    }
  }

  // --- A list of tools ---

  // The ith tool gets the unique name that follows from its own and from those before it.
  ghost predicate NormalizedAt(names: seq<string>, out: seq<string>, i: nat)
    requires i < |names| == |out|
  {
    IsUniqueName(SafeName(names[i]), Names(out[..i]), out[i])
  }

  ghost predicate IsNormalized(names: seq<string>, out: seq<string>) {
    |out| == |names| && forall i :: 0 <= i < |names| ==> NormalizedAt(names, out, i)
  }

  ghost function Names(names: seq<string>): set<string> { set name | name in names }

  ghost predicate Distinct(names: seq<string>) {
    forall i, j :: 0 <= i < j < |names| ==> names[i] != names[j]
  }

  // Length and order are kept; the names are pairwise distinct and safe.
  method NormalizeToolNames(names: seq<string>) returns (out: seq<string>)
    ensures IsNormalized(names, out)
    ensures Distinct(out) && forall i :: 0 <= i < |out| ==> IsSafe(out[i])
  {
    var used: set<string> := {};
    out := [];
    for i := 0 to |names|
      invariant IsNormalized(names[..i], out) && used == Names(out)
    {
      var safe := ProviderSafeToolName(names[i]);
      var name;
      name, used := MakeUniqueToolName(safe, used);
      NormalizedNext(names[..i], names[i], out, name);
      assert names[..i + 1] == names[..i] + [names[i]];
      out := out + [name];
    }
    assert names[..|names|] == names;
    NormalizedIsSafe(names, out);
  }

  lemma NormalizedNext(names: seq<string>, raw: string, out: seq<string>, name: string)
    requires IsNormalized(names, out) && IsUniqueName(SafeName(raw), Names(out), name)
    ensures IsNormalized(names + [raw], out + [name])
    ensures Names(out + [name]) == Names(out) + {name}
  {
    var all := out + [name];
    forall i | 0 <= i < |all|
      ensures NormalizedAt(names + [raw], all, i)
    {
      assert all[..i] == out[..i];
      if i < |out| {
        assert NormalizedAt(names, out, i);
      } else {
        assert out[..i] == out;
      }
    }
  }

  lemma NormalizedIsSafe(names: seq<string>, out: seq<string>)
    requires IsNormalized(names, out)
    ensures Distinct(out) && forall i :: 0 <= i < |out| ==> IsSafe(out[i])
  {
    forall i | 0 <= i < |out|
      ensures IsSafe(out[i])
    {
      assert NormalizedAt(names, out, i);
      SafeNameIsSafe();
      var base, used := SafeName(names[i]), Names(out[..i]);
      if base in used {
        var k :| k >= 2 && out[i] == Suffixed(base, k) && forall j :: 2 <= j < k ==> Suffixed(base, j) in used;
        SuffixedIsSafe(base, k);
      }
    }
    forall i, j | 0 <= i < j < |out|
      ensures out[i] != out[j]
    {
      assert NormalizedAt(names, out, j);
      assert out[..j][i] == out[i];
      assert out[i] in Names(out[..j]);
    }
  }

  // A list is left as it is exactly when its names are safe and distinct; in particular
  // normalizing twice is normalizing once.
  lemma NormalizedFixedIff(names: seq<string>, out: seq<string>)
    requires IsNormalized(names, out)
    ensures out == names <==> Distinct(names) && forall i :: 0 <= i < |names| ==> IsSafe(names[i])
  {
    NormalizedIsSafe(names, out);
    if Distinct(names) && forall i :: 0 <= i < |names| ==> IsSafe(names[i]) {
      SafeListStays(names, out, |names|);
      assert out[..|names|] == out && names[..|names|] == names;
    }
  }

  lemma {:induction false} SafeListStays(names: seq<string>, out: seq<string>, n: nat)
    requires IsNormalized(names, out) && n <= |names|
    requires Distinct(names) && forall i :: 0 <= i < |names| ==> IsSafe(names[i])
    ensures out[..n] == names[..n]
  {
    if n > 0 {
      SafeListStays(names, out, n - 1);
      SafeStays(names[n - 1]);
      var earlier := names[..n - 1];
      forall i | 0 <= i < |earlier|
        ensures earlier[i] != names[n - 1]
      {
      }
      assert NormalizedAt(names, out, n - 1);
      assert out[..n] == out[..n - 1] + [out[n - 1]] && names[..n] == names[..n - 1] + [names[n - 1]];
    }
  }
}
