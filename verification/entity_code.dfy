/**
 Codes for devices and groups created without one (service/entityCode.go): a name
 is folded into a topic-safe code, and a suffix is searched that nobody uses yet.
 Names are taken after trimming and lower-casing; the random suffix is a parameter.
 */
module EntityCode {

  import opened Collections
  import opened Decimal

  const MAX_LENGTH: nat := 64

  predicate Letter(c: char) {
    'a' <= c <= 'z' || 'A' <= c <= 'Z'
  }

  predicate CodeChar(c: char) {
    Letter(c) || IsDigit(c) || c == '_' || c == '-'
  }

  /** The format shared by all codes. */
  predicate WellFormed(code: string) {
    0 < |code| <= MAX_LENGTH && Letter(code[0]) && forall c :: c in code ==> CodeChar(c)
  }

  predicate Trimmable(c: char) {
    c == '-' || c == '_'
  }

  function TrimRight(s: string): (t: string)
    ensures t <= s && (t == [] || !Trimmable(t[|t| - 1]))
    ensures s != [] && !Trimmable(s[0]) ==> t != [] && t[0] == s[0]
  {
    if s != [] && Trimmable(s[|s| - 1]) then TrimRight(s[..|s| - 1]) else s
  }

  function TrimLeft(s: string): (t: string)
    ensures |t| <= |s| && (t == [] || !Trimmable(t[0]))
    ensures t == s[|s| - |t|..]
  {
    if s != [] && Trimmable(s[0]) then TrimLeft(s[1..]) else s
  }

  /** Trimming takes away dashes and underscores at the ends, and nothing else. */
  lemma {:induction false} TrimRightOnly(s: string)
    ensures forall i :: |TrimRight(s)| <= i < |s| ==> Trimmable(s[i])
  {
    if s != [] {
      TrimRightOnly(s[..|s| - 1]);
    }
  }

  lemma {:induction false} TrimLeftOnly(s: string)
    ensures forall i :: 0 <= i < |s| - |TrimLeft(s)| ==> Trimmable(s[i])
  {
    if s != [] && Trimmable(s[0]) {
      TrimLeftOnly(s[1..]);
      assert forall i :: 1 <= i < |s| ==> s[i] == s[1..][i - 1];
    }
  }

  // ----- The search for a free code -----

  function Suffix(i: nat): string {
    "-" + Itoa(i)
  }

  /** What of the base goes in front of suffix i. */
  function Stem(base: string, i: nat): (stem: string)
    requires |Suffix(i)| <= MAX_LENGTH
    ensures stem <= base
  {
    if |base| + |Suffix(i)| > MAX_LENGTH then TrimRight(base[..Least(|base|, MAX_LENGTH - |Suffix(i)|)]) else base
  }

  function Candidate(base: string, i: nat): string
    requires |Suffix(i)| <= MAX_LENGTH
  {
    Stem(base, i) + Suffix(i)
  }

  function Least(a: nat, b: nat): nat {
    if a <= b then a else b
  }

  lemma ItoaIsDigits(i: nat)
    ensures (forall c :: c in Itoa(i) ==> IsDigit(c)) && '-' !in Itoa(i)
  {
  }

  /** The digits behind the last dash give the suffix away. */
  lemma CandidatesDiffer(base: string, i: nat, j: nat)
    requires |Suffix(i)| <= MAX_LENGTH && |Suffix(j)| <= MAX_LENGTH && Candidate(base, i) == Candidate(base, j)
    ensures i == j
  {
    ItoaIsDigits(i);
    ItoaIsDigits(j);
    assert Candidate(base, i) == Stem(base, i) + ['-'] + Itoa(i);
    assert Candidate(base, j) == Stem(base, j) + ['-'] + Itoa(j);
    LastSeparatorSplits('-', Stem(base, i), Stem(base, j), Itoa(i), Itoa(j));
    ItoaInjective(i, j);
  }

  lemma CandidateIsWellFormed(base: string, i: nat)
    requires |Suffix(i)| < MAX_LENGTH
    ensures |Candidate(base, i)| <= MAX_LENGTH
    ensures WellFormed(base) ==> WellFormed(Candidate(base, i))
  {
    ItoaIsDigits(i);
  }

  const MAX_INT: nat := 0x7FFF_FFFF_FFFF_FFFF

  lemma SuffixIsShort(i: nat)
    requires i <= MAX_INT
    ensures |Suffix(i)| <= 20
  {
    assert PowerOfTen(19) == 10_000_000_000_000_000_000 by {
      assert PowerOfTen(10) == 10_000_000_000;
    }
    DigitsShort(i, 19);
  }

  ghost predicate IsTaken(base: string, taken: set<string>, j: nat) {
    |Suffix(j)| <= MAX_LENGTH && Candidate(base, j) in taken
  }

  /** The suffixes tried so far were all taken, hence no more than there are taken codes. */
  ghost predicate AllTaken(base: string, taken: set<string>, tried: set<string>, i: nat) {
    && tried <= taken && |tried| == i - 2
    && (forall j :: 2 <= j < i ==> IsTaken(base, taken, j))
    && forall code :: code in tried ==> exists j :: 2 <= j < i && |Suffix(j)| <= MAX_LENGTH && code == Candidate(base, j)
  }

  lemma NotTried(base: string, taken: set<string>, tried: set<string>, i: nat)
    requires i >= 2 && AllTaken(base, taken, tried, i) && |Suffix(i)| <= MAX_LENGTH
    ensures Candidate(base, i) !in tried
  {
    if Candidate(base, i) in tried {
      var j :| 2 <= j < i && |Suffix(j)| <= MAX_LENGTH && Candidate(base, i) == Candidate(base, j);
      CandidatesDiffer(base, i, j);
    }
  }

  lemma OneMoreTaken(base: string, taken: set<string>, tried: set<string>, i: nat)
    requires i >= 2 && AllTaken(base, taken, tried, i) && IsTaken(base, taken, i)
    ensures AllTaken(base, taken, tried + {Candidate(base, i)}, i + 1) && i - 1 <= |taken|
  {
    NotTried(base, taken, tried, i);
    SubsetSize(tried + {Candidate(base, i)}, taken);
  }

  /**
   The code is the base or the one with the first free suffix, found after at most
   one more suffix than there are taken codes.  The suffix is a machine integer.
   */
  method UniqueEntityCode(base: string, taken: set<string>) returns (code: string, ghost suffixes: nat)
    requires |taken| + 2 <= MAX_INT
    ensures code !in taken && suffixes <= |taken| + 1
    ensures if suffixes == 0 then code == base
            else base in taken && |Suffix(suffixes + 1)| <= MAX_LENGTH && code == Candidate(base, suffixes + 1)
    ensures forall j :: 2 <= j <= suffixes ==> IsTaken(base, taken, j)
    ensures |base| <= MAX_LENGTH ==> |code| <= MAX_LENGTH
    ensures WellFormed(base) ==> WellFormed(code)
  {
    suffixes := 0;
    if base !in taken {
      return base, suffixes;
    }
    var i := 2;
    ghost var tried: set<string> := {};
    while true
      invariant 2 <= i <= |taken| + 2 && suffixes == i - 2
      invariant AllTaken(base, taken, tried, i)
      decreases |taken| + 2 - i
    {
      SuffixIsShort(i);
      CandidateIsWellFormed(base, i);
      code := Candidate(base, i);
      suffixes := suffixes + 1;
      if code !in taken {
        return;
      }
      OneMoreTaken(base, taken, tried, i);
      tried := tried + {code};
      i := i + 1;
    }
  }

  // ----- Folding a name into a code -----

  predicate Lower(c: char) {
    'a' <= c <= 'z'
  }

  predicate AlphaNumeric(c: char) {
    Lower(c) || IsDigit(c)
  }

  predicate Stays(c: char) {
    AlphaNumeric(c) || c == '_'
  }

  /** Everything else becomes one dash per run. */
  function Folded(name: string): (code: string)
    ensures |code| <= |name|
  {
    if name == [] then []
    else
      var front, c := Folded(name[..|name| - 1]), name[|name| - 1];
      if Stays(c) then front + [c]
      else if front != [] && front[|front| - 1] == '-' then front
      else front + ['-']
  }

  predicate HasAlphaNumeric(name: string) {
    exists c :: c in name && AlphaNumeric(c)
  }

  function Fallback(prefix: string, random: string): string {
    prefix + "_" + random
  }

  function Prefixed(code: string, prefix: string): string {
    if code != [] && Lower(code[0]) then code else prefix + "-" + code
  }

  function Shortened(code: string): string {
    if |code| > MAX_LENGTH then TrimRight(code[..MAX_LENGTH]) else code
  }

  /** What is between the dashes and underscores at the ends of the folded name. */
  function Core(name: string): string {
    TrimRight(TrimLeft(Folded(name)))
  }

  function Generated(name: string, prefix: string, random: string): string {
    var code := Shortened(Prefixed(Core(name), prefix));
    if !HasAlphaNumeric(name) || !WellFormed(code) then Fallback(prefix, random) else code
  }

  /** What folding aims at: lower case, no run of dashes, nothing to trim at the end. */
  ghost predicate Normal(code: string) {
    && WellFormed(code) && Lower(code[0]) && !Trimmable(code[|code| - 1])
    && Tidy(code)
  }

  ghost predicate Tidy(code: string) {
    && (forall i :: 0 <= i < |code| ==> Stays(code[i]) || code[i] == '-')
    && (forall i :: 0 < i < |code| ==> code[i - 1] != '-' || code[i] != '-')
  }

  lemma {:induction false} FoldedIsTidy(name: string)
    ensures Tidy(Folded(name))
    ensures HasAlphaNumeric(name) ==> HasAlphaNumeric(Folded(name))
  {
    if name != [] {
      var n := |name| - 1;
      FoldedIsTidy(name[..n]);
      if HasAlphaNumeric(name) && !HasAlphaNumeric(name[..n]) {
        assert AlphaNumeric(name[n]);
        assert name[n] in Folded(name);
      }
    }
  }

  /**
   What folding is, piece by piece: letters, digits and underscores stay, a run of
   anything else becomes one dash, and pieces that do not split such a run are folded
   one by one.
   */
  lemma {:induction false} FoldedByPieces(x: string, y: string)
    requires x == [] || y == [] || Stays(x[|x| - 1]) || Stays(y[0])
    ensures Folded(x + y) == Folded(x) + Folded(y)
    decreases |y|
  {
    if y == [] {
      assert x + y == x;
    } else {
      var front, c := y[..|y| - 1], y[|y| - 1];
      assert (x + y)[..|x + y| - 1] == x + front && (x + y)[|x + y| - 1] == c;
      FoldedByPieces(x, front);
      FoldedEnds(x);
      if front == [] {
        assert Folded(x + y) == Folded(x) + Folded(y);
      }
    }
  }

  /** A folding ends in a dash exactly when the name ends in something that does not stay. */
  lemma FoldedEnds(name: string)
    ensures name == [] <==> Folded(name) == []
    ensures name != [] ==>
              Folded(name)[|Folded(name)| - 1] == if Stays(name[|name| - 1]) then name[|name| - 1] else '-'
  {
  }

  lemma {:induction false} FoldedPieces(piece: string)
    ensures (forall c :: c in piece ==> Stays(c)) ==> Folded(piece) == piece
    ensures piece != [] && (forall c :: c in piece ==> !Stays(c)) ==> Folded(piece) == "-"
  {
    if piece != [] {
      var front := piece[..|piece| - 1];
      FoldedPieces(front);
      assert piece == front + [piece[|piece| - 1]];
    }
  }

  /** Tidy text is its own folding. */
  lemma {:induction false} TidyFoldsToItself(code: string)
    requires Tidy(code)
    ensures Folded(code) == code
  {
    if code != [] {
      var front := code[..|code| - 1];
      TidyFoldsToItself(front);
      assert code == front + [code[|code| - 1]];
    }
  }

  lemma SliceIsTidy(s: string, lo: nat, n: nat)
    requires Tidy(s) && lo + n <= |s|
    ensures Tidy(s[lo..][..n])
  {
  }

  lemma TrimmedIsTidy(s: string)
    requires Tidy(s)
    ensures var t := TrimRight(TrimLeft(s)); Tidy(t) && (t != [] ==> !Trimmable(t[0]) && !Trimmable(t[|t| - 1]))
    ensures HasAlphaNumeric(s) ==> TrimRight(TrimLeft(s)) != []
  {
    var u := TrimLeft(s);
    var t := TrimRight(u);
    assert t == s[|s| - |u|..][..|t|];
    SliceIsTidy(s, |s| - |u|, |t|);
    if HasAlphaNumeric(s) {
      TrimLeftKeeps(s);
    }
  }

  lemma {:induction false} TrimLeftKeeps(s: string)
    requires HasAlphaNumeric(s)
    ensures TrimLeft(s) != []
  {
    var c :| c in s && AlphaNumeric(c);
    if Trimmable(s[0]) {
      assert s == [s[0]] + s[1..];
      assert c in s[1..];
      TrimLeftKeeps(s[1..]);
    }
  }

  lemma ShortenedIsNormal(code: string)
    requires code != [] && Tidy(code) && Lower(code[0]) && !Trimmable(code[|code| - 1])
    ensures Normal(Shortened(code))
  {
    var t := Shortened(code);
    assert t <= code;
    forall c | c in t
      ensures CodeChar(c)
    {
      var i :| 0 <= i < |t| && t[i] == c;
      assert code[i] == c;
    }
  }

  /** Whatever the name, the code is well formed and tidy, provided the fixed prefix and the random part are. */
  lemma GeneratedIsNormal(name: string, prefix: string, random: string)
    requires Normal(prefix) && |prefix| <= 32
    requires |random| == 8 && forall c :: c in random ==> AlphaNumeric(c)
    ensures Normal(Generated(name, prefix, random))
  {
    FallbackIsNormal(prefix, random);
    if HasAlphaNumeric(name) {
      CoreIsTidy(name);
      CodeIsNormal(Core(name), prefix);
    }
  }

  lemma CodeIsNormal(code: string, prefix: string)
    requires Tidy(code) && code != [] && !Trimmable(code[0]) && !Trimmable(code[|code| - 1])
    requires Normal(prefix) && |prefix| < MAX_LENGTH
    ensures Normal(Shortened(Prefixed(code, prefix)))
  {
    ShortenedIsNormal(Prefixed(code, prefix));
  }

  lemma FallbackIsNormal(prefix: string, random: string)
    requires Normal(prefix) && |prefix| <= 32
    requires |random| == 8 && forall c :: c in random ==> AlphaNumeric(c)
    ensures Normal(Fallback(prefix, random))
  {
    var code := Fallback(prefix, random);
    assert forall i :: 0 <= i < 8 ==> random[i] in random;
    assert forall i :: |prefix| < i < |code| ==> code[i] == random[i - |prefix| - 1];
  }

  lemma CoreIsTidy(name: string)
    requires HasAlphaNumeric(name)
    ensures var core := Core(name);
            core != [] && Tidy(core) && !Trimmable(core[0]) && !Trimmable(core[|core| - 1])
  {
    FoldedIsTidy(name);
    TrimmedIsTidy(Folded(name));
  }

  lemma ShortenedIsFromCore(core: string, prefix: string)
    requires core != []
    ensures Shortened(Prefixed(core, prefix)) == FromCore(core, prefix)
  {
  }

  lemma GeneratedByCore(name: string, prefix: string, random: string, code: string)
    requires code == Shortened(Prefixed(Core(name), prefix))
    ensures Generated(name, prefix, random)
            == if !HasAlphaNumeric(name) || !WellFormed(code) then prefix + "_" + random else code
  {
  }

  /** Which code a name gives: its core, behind the prefix unless it starts with a letter, cut to length; or the fallback. */
  lemma GeneratedFrom(name: string, prefix: string, random: string)
    requires Normal(prefix) && |prefix| <= 32
    ensures !HasAlphaNumeric(name) ==> Generated(name, prefix, random) == prefix + "_" + random
    ensures HasAlphaNumeric(name) ==>
              Core(name) != [] && Generated(name, prefix, random) == FromCore(Core(name), prefix)
  {
    var core := Core(name);
    var code := Shortened(Prefixed(core, prefix));
    GeneratedByCore(name, prefix, random, code);
    if HasAlphaNumeric(name) {
      CoreIsTidy(name);
      CodeIsNormal(core, prefix);
      ShortenedIsFromCore(core, prefix);
    }
  }

  function FromCore(core: string, prefix: string): string
    requires core != []
  {
    var whole := if 'a' <= core[0] <= 'z' then core else prefix + "-" + core;
    if |whole| <= 64 then whole else TrimRight(whole[..64])
  }

  /** A code that is already in this form is left alone, so generating twice changes nothing. */
  lemma NormalIsKept(code: string, prefix: string, random: string)
    requires Normal(code)
    ensures Generated(code, prefix, random) == code
  {
    TidyFoldsToItself(code);
    assert code[0] in code;
  }

  /** Generating is idempotent: a generated code, taken as a name, gives itself, with whatever fallback. */
  lemma GeneratedTwice(name: string, prefix: string, random: string, other: string, more: string)
    requires Normal(prefix) && |prefix| <= 32
    requires |random| == 8 && forall c :: c in random ==> AlphaNumeric(c)
    ensures Generated(Generated(name, prefix, random), other, more) == Generated(name, prefix, random)
  {
    GeneratedIsNormal(name, prefix, random);
    NormalIsKept(Generated(name, prefix, random), other, more);
  }

  method Fold(name: string) returns (b: string, hasAlnum: bool)
    ensures b == Folded(name) && (hasAlnum <==> HasAlphaNumeric(name))
  {
    var prevDash := false;
    b, hasAlnum := [], false;
    assert name[..0] == [];
    for i := 0 to |name|
      invariant b == Folded(name[..i])
      invariant hasAlnum <==> HasAlphaNumeric(name[..i])
      invariant prevDash <==> b != [] && b[|b| - 1] == '-'
    {
      var c := name[i];
      assert name[..i + 1] == name[..i] + [c];
      if AlphaNumeric(c) {
        b, hasAlnum, prevDash := b + [c], true, false;
      } else if c == '_' {
        b, prevDash := b + [c], false;
      } else if !prevDash {
        b, prevDash := b + ['-'], true;
      }
    }
    assert name[..|name|] == name;
  }

  method GeneratedEntityCode(name: string, prefix: string, random: string) returns (code: string)
    ensures code == Generated(name, prefix, random)
  {
    var b, hasAlnum := Fold(name);
    code := TrimRight(TrimLeft(b));
    if !hasAlnum {
      return Fallback(prefix, random);
    }
    if !(code != [] && Lower(code[0])) {
      code := prefix + "-" + code;
    }
    if |code| > MAX_LENGTH {
      code := TrimRight(code[..MAX_LENGTH]);
    }
    if !WellFormed(code) {
      code := Fallback(prefix, random);
    }
  }
}
