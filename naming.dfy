/**
  The column-name cleaner that both the serving side (src/app.py) and the
  training side (src/train.py) apply before handing names to the gradient
  boosting library, whose feature-name grammar forbids `<`, `>`, `[` and `]`.

  The source writes it as a chain of six whole-string replacements. `Clean`
  below is the per-character reading of that chain; `ChainIsClean` proves the
  two agree, because no replacement text contains a character that a later
  step replaces.
*/
module Naming {

  /** The six characters the cleaner rewrites. */
  predicate IsTrigger(c: char) {
    c == '<' || c == '>' || c == '[' || c == ']' || c == '%' || c == ' '
  }

  /** A name in which the cleaner has nothing left to rewrite. */
  predicate Normalized(s: string) {
    forall i :: 0 <= i < |s| ==> !IsTrigger(s[i])
  }

  /** What one character of a name becomes. */
  function CleanChar(c: char): (r: string)
    ensures Normalized(r) && |r| >= 1
    ensures !IsTrigger(c) ==> r == [c]
  {
    match c
    case '<' => "lt"
    case '>' => "gt"
    case '[' => "("
    case ']' => ")"
    case '%' => "pct"
    case ' ' => "_"
    case _ => [c]
  }

  /**
    The cleaned name: every character rewritten by `CleanChar`, in order.
    (Defined on the last character so that the verifier does not unroll it
    on long literal names.)
  */
  function Clean(s: string): (r: string)
    ensures Normalized(r)
  {
    if |s| == 0 then [] else Clean(s[..|s| - 1]) + CleanChar(s[|s| - 1])
  }

  /** Cleaning never shortens a name: every character becomes at least one. */
  lemma {:induction false} CleanLength(s: string)
    ensures |Clean(s)| >= |s|
  {
    if |s| != 0 {
      CleanLength(s[..|s| - 1]);
    }
  }

  /** One `str.replace(from, to, regex=False)` with a one-character pattern. */
  function ReplaceAll(s: string, from: char, to: string): (r: string)
    ensures from !in to ==> from !in r
  {
    if |s| == 0 then []
    else ReplaceAll(s[..|s| - 1], from, to) + (if s[|s| - 1] == from then to else [s[|s| - 1]])
  }

  /** A replacement introduces no character that is in neither the name nor the replacement text. */
  lemma {:induction false} ReplaceAllChars(s: string, from: char, to: string)
    ensures forall c :: c in ReplaceAll(s, from, to) ==> c in s || c in to
  {
    if |s| != 0 {
      ReplaceAllChars(s[..|s| - 1], from, to);
    }
  }

  /** The six replacements in the order the source chains them. */
  function ReplaceChain(s: string): (r: string)
    ensures Normalized(r)
  {
    var s1 := ReplaceAll(s, '<', "lt");
    var s2 := ReplaceAll(s1, '>', "gt");
    var s3 := ReplaceAll(s2, '[', "(");
    var s4 := ReplaceAll(s3, ']', ")");
    var s5 := ReplaceAll(s4, '%', "pct");
    var s6 := ReplaceAll(s5, ' ', "_");
    ReplaceAllChars(s, '<', "lt");
    ReplaceAllChars(s1, '>', "gt");
    ReplaceAllChars(s2, '[', "(");
    ReplaceAllChars(s3, ']', ")");
    ReplaceAllChars(s4, '%', "pct");
    ReplaceAllChars(s5, ' ', "_");
    assert '<' !in s1;
    assert '<' !in s2 && '>' !in s2;
    assert '<' !in s3 && '>' !in s3 && '[' !in s3;
    assert '<' !in s4 && '>' !in s4 && '[' !in s4 && ']' !in s4;
    assert '<' !in s5 && '>' !in s5 && '[' !in s5 && ']' !in s5 && '%' !in s5;
    assert '<' !in s6 && '>' !in s6 && '[' !in s6 && ']' !in s6 && '%' !in s6 && ' ' !in s6;
    s6
  }

  lemma {:induction false} ReplaceAllConcat(a: string, b: string, from: char, to: string)
    ensures ReplaceAll(a + b, from, to) == ReplaceAll(a, from, to) + ReplaceAll(b, from, to)
  {
    if |b| == 0 {
      assert a + b == a;
    } else {
      var init := b[..|b| - 1];
      assert (a + b)[..|a + b| - 1] == a + init;
      assert (a + b)[|a + b| - 1] == b[|b| - 1];
      ReplaceAllConcat(a, init, from, to);
    }
  }

  lemma ReplaceChainConcat(a: string, b: string)
    ensures ReplaceChain(a + b) == ReplaceChain(a) + ReplaceChain(b)
  {
    var s0, t0 := a, b;
    ReplaceAllConcat(s0, t0, '<', "lt");
    var s1, t1 := ReplaceAll(s0, '<', "lt"), ReplaceAll(t0, '<', "lt");
    ReplaceAllConcat(s1, t1, '>', "gt");
    var s2, t2 := ReplaceAll(s1, '>', "gt"), ReplaceAll(t1, '>', "gt");
    ReplaceAllConcat(s2, t2, '[', "(");
    var s3, t3 := ReplaceAll(s2, '[', "("), ReplaceAll(t2, '[', "(");
    ReplaceAllConcat(s3, t3, ']', ")");
    var s4, t4 := ReplaceAll(s3, ']', ")"), ReplaceAll(t3, ']', ")");
    ReplaceAllConcat(s4, t4, '%', "pct");
    var s5, t5 := ReplaceAll(s4, '%', "pct"), ReplaceAll(t4, '%', "pct");
    ReplaceAllConcat(s5, t5, ' ', "_");
  }

  /** A replacement whose pattern does not occur changes nothing. */
  lemma {:induction false} ReplaceAllAbsent(s: string, from: char, to: string)
    requires from !in s
    ensures ReplaceAll(s, from, to) == s
  {
    if |s| != 0 {
      ReplaceAllAbsent(s[..|s| - 1], from, to);
    }
  }

  lemma ReplaceAllSingle(c: char, from: char, to: string)
    ensures ReplaceAll([c], from, to) == if c == from then to else [c]
  {
    assert [c][..0] == [];
  }

  /** On a single character the chain does what `CleanChar` says. */
  lemma ReplaceChainChar(c: char)
    ensures ReplaceChain([c]) == CleanChar(c)
  {
    if IsTrigger(c) {
      ReplaceChainTrigger(c);
    } else {
      ReplaceAllAbsent([c], '<', "lt");
      ReplaceAllAbsent([c], '>', "gt");
      ReplaceAllAbsent([c], '[', "(");
      ReplaceAllAbsent([c], ']', ")");
      ReplaceAllAbsent([c], '%', "pct");
      ReplaceAllAbsent([c], ' ', "_");
    }
  }

  lemma ReplaceChainTrigger(c: char)
    requires IsTrigger(c)
    ensures ReplaceChain([c]) == CleanChar(c)
  {
    match c
    case '<' => ReplaceChainLt();
    case '>' => ReplaceChainGt();
    case '[' => ReplaceChainOpenBracket();
    case ']' => ReplaceChainCloseBracket();
    case '%' => ReplaceChainPercent();
    case ' ' => ReplaceChainSpace();
  }

  lemma ReplaceChainLt()
    ensures ReplaceChain("<") == "lt"
  {
    var s1 := ReplaceAll("<", '<', "lt");
    ReplaceAllSingle('<', '<', "lt");
    assert s1 == "lt";
    var s2 := ReplaceAll(s1, '>', "gt");
    ReplaceAllAbsent("lt", '>', "gt");
    assert s2 == "lt";
    var s3 := ReplaceAll(s2, '[', "(");
    ReplaceAllAbsent("lt", '[', "(");
    assert s3 == "lt";
    var s4 := ReplaceAll(s3, ']', ")");
    ReplaceAllAbsent("lt", ']', ")");
    assert s4 == "lt";
    var s5 := ReplaceAll(s4, '%', "pct");
    ReplaceAllAbsent("lt", '%', "pct");
    assert s5 == "lt";
    var s6 := ReplaceAll(s5, ' ', "_");
    ReplaceAllAbsent("lt", ' ', "_");
    assert s6 == "lt";
  }

  lemma ReplaceChainGt()
    ensures ReplaceChain(">") == "gt"
  {
    var s1 := ReplaceAll(">", '<', "lt");
    ReplaceAllAbsent(">", '<', "lt");
    assert s1 == ">";
    var s2 := ReplaceAll(s1, '>', "gt");
    ReplaceAllSingle('>', '>', "gt");
    assert s2 == "gt";
    var s3 := ReplaceAll(s2, '[', "(");
    ReplaceAllAbsent("gt", '[', "(");
    assert s3 == "gt";
    var s4 := ReplaceAll(s3, ']', ")");
    ReplaceAllAbsent("gt", ']', ")");
    assert s4 == "gt";
    var s5 := ReplaceAll(s4, '%', "pct");
    ReplaceAllAbsent("gt", '%', "pct");
    assert s5 == "gt";
    var s6 := ReplaceAll(s5, ' ', "_");
    ReplaceAllAbsent("gt", ' ', "_");
    assert s6 == "gt";
  }

  lemma ReplaceChainOpenBracket()
    ensures ReplaceChain("[") == "("
  {
    var s1 := ReplaceAll("[", '<', "lt");
    ReplaceAllAbsent("[", '<', "lt");
    assert s1 == "[";
    var s2 := ReplaceAll(s1, '>', "gt");
    ReplaceAllAbsent("[", '>', "gt");
    assert s2 == "[";
    var s3 := ReplaceAll(s2, '[', "(");
    ReplaceAllSingle('[', '[', "(");
    assert s3 == "(";
    var s4 := ReplaceAll(s3, ']', ")");
    ReplaceAllAbsent("(", ']', ")");
    assert s4 == "(";
    var s5 := ReplaceAll(s4, '%', "pct");
    ReplaceAllAbsent("(", '%', "pct");
    assert s5 == "(";
    var s6 := ReplaceAll(s5, ' ', "_");
    ReplaceAllAbsent("(", ' ', "_");
    assert s6 == "(";
  }

  lemma ReplaceChainCloseBracket()
    ensures ReplaceChain("]") == ")"
  {
    var s1 := ReplaceAll("]", '<', "lt");
    ReplaceAllAbsent("]", '<', "lt");
    assert s1 == "]";
    var s2 := ReplaceAll(s1, '>', "gt");
    ReplaceAllAbsent("]", '>', "gt");
    assert s2 == "]";
    var s3 := ReplaceAll(s2, '[', "(");
    ReplaceAllAbsent("]", '[', "(");
    assert s3 == "]";
    var s4 := ReplaceAll(s3, ']', ")");
    ReplaceAllSingle(']', ']', ")");
    assert s4 == ")";
    var s5 := ReplaceAll(s4, '%', "pct");
    ReplaceAllAbsent(")", '%', "pct");
    assert s5 == ")";
    var s6 := ReplaceAll(s5, ' ', "_");
    ReplaceAllAbsent(")", ' ', "_");
    assert s6 == ")";
  }

  lemma ReplaceChainPercent()
    ensures ReplaceChain("%") == "pct"
  {
    var s1 := ReplaceAll("%", '<', "lt");
    ReplaceAllAbsent("%", '<', "lt");
    assert s1 == "%";
    var s2 := ReplaceAll(s1, '>', "gt");
    ReplaceAllAbsent("%", '>', "gt");
    assert s2 == "%";
    var s3 := ReplaceAll(s2, '[', "(");
    ReplaceAllAbsent("%", '[', "(");
    assert s3 == "%";
    var s4 := ReplaceAll(s3, ']', ")");
    ReplaceAllAbsent("%", ']', ")");
    assert s4 == "%";
    var s5 := ReplaceAll(s4, '%', "pct");
    ReplaceAllSingle('%', '%', "pct");
    assert s5 == "pct";
    var s6 := ReplaceAll(s5, ' ', "_");
    ReplaceAllAbsent("pct", ' ', "_");
    assert s6 == "pct";
  }

  lemma ReplaceChainSpace()
    ensures ReplaceChain(" ") == "_"
  {
    var s1 := ReplaceAll(" ", '<', "lt");
    ReplaceAllAbsent(" ", '<', "lt");
    assert s1 == " ";
    var s2 := ReplaceAll(s1, '>', "gt");
    ReplaceAllAbsent(" ", '>', "gt");
    assert s2 == " ";
    var s3 := ReplaceAll(s2, '[', "(");
    ReplaceAllAbsent(" ", '[', "(");
    assert s3 == " ";
    var s4 := ReplaceAll(s3, ']', ")");
    ReplaceAllAbsent(" ", ']', ")");
    assert s4 == " ";
    var s5 := ReplaceAll(s4, '%', "pct");
    ReplaceAllAbsent(" ", '%', "pct");
    assert s5 == " ";
    var s6 := ReplaceAll(s5, ' ', "_");
    ReplaceAllSingle(' ', ' ', "_");
    assert s6 == "_";
  }

  /**
    The chain of whole-string replacements equals the per-character cleaner:
    no replacement text ("lt", "gt", "(", ")", "pct", "_") contains a
    character that a later step of the chain replaces.
  */
  lemma {:induction false} ChainIsClean(s: string)
    ensures ReplaceChain(s) == Clean(s)
  {
    if |s| != 0 {
      var init, last := s[..|s| - 1], s[|s| - 1];
      assert s == init + [last];
      ReplaceChainConcat(init, [last]);
      ReplaceChainChar(last);
      ChainIsClean(init);
    }
  }

  /** Cleaning distributes over concatenation. */
  lemma {:induction false} CleanConcat(a: string, b: string)
    ensures Clean(a + b) == Clean(a) + Clean(b)
  {
    if |b| == 0 {
      assert a + b == a;
    } else {
      var init, last := b[..|b| - 1], b[|b| - 1];
      assert (a + b)[..|a + b| - 1] == a + init;
      assert (a + b)[|a + b| - 1] == last;
      assert Clean(a + b) == Clean(a + init) + CleanChar(last);
      assert Clean(b) == Clean(init) + CleanChar(last);
      CleanConcat(a, init);
      ConcatAssoc(Clean(a), Clean(init), CleanChar(last));
    }
  }

  lemma ConcatAssoc(x: string, y: string, z: string)
    ensures x + y + z == x + (y + z)
  {
  }

  /** A name is left unchanged by the cleaner exactly when it is normalized. */
  lemma {:induction false} CleanFixedPoints(s: string)
    ensures Clean(s) == s <==> Normalized(s)
  {
    if |s| != 0 {
      var init := s[..|s| - 1];
      CleanFixedPoints(init);
      if Normalized(s) {
        assert Normalized(init);
      }
      assert s == init + [s[|s| - 1]];
    }
  }

  /** Cleaning keeps the first character of a name that does not start with a trigger. */
  lemma CleanFirst(s: string)
    requires |s| >= 1 && !IsTrigger(s[0])
    ensures |Clean(s)| >= 1 && Clean(s)[0] == s[0]
  {
    assert s == [s[0]] + s[1..];
    CleanConcat([s[0]], s[1..]);
    CleanSingle(s[0]);
  }

  /** Cleaning twice is cleaning once. */
  lemma CleanIdempotent(s: string)
    ensures Clean(Clean(s)) == Clean(s)
  {
    CleanFixedPoints(Clean(s));
  }

  /**
    Cleaning a full column name `<prefix><level>` whose prefix (a field name
    and its underscore) is already normalized cleans only the level.
  */
  lemma CleanPrefixed(prefix: string, level: string)
    requires Normalized(prefix)
    ensures Clean(prefix + level) == prefix + Clean(level)
  {
    CleanConcat(prefix, level);
    CleanFixedPoints(prefix);
  }

  /** A one-character name is cleaned by `CleanChar`. */
  lemma CleanSingle(c: char)
    ensures Clean([c]) == CleanChar(c)
  {
    assert [c][..0] == [];
  }

  /** Cleaning `a + [c] + b` where `a` is normalized rewrites `c` and then `b`. */
  lemma CleanAround(a: string, c: char, b: string)
    requires Normalized(a)
    ensures Clean(a + [c] + b) == a + CleanChar(c) + Clean(b)
  {
    calc {
      Clean(a + [c] + b);
      { assert a + [c] + b == a + ([c] + b); }
      Clean(a + ([c] + b));
      { CleanPrefixed(a, [c] + b); }
      a + Clean([c] + b);
      { CleanConcat([c], b); CleanSingle(c); }
      a + (CleanChar(c) + Clean(b));
      a + CleanChar(c) + Clean(b);
    }
  }

  /** A name with one character to rewrite between two normalized parts. */
  lemma CleanOneTrigger(s: string, a: string, c: char, b: string)
    requires Normalized(a) && Normalized(b) && s == a + [c] + b
    ensures Clean(s) == a + CleanChar(c) + b
  {
    CleanAround(a, c, b);
    CleanFixedPoints(b);
  }

  /** A name with two characters to rewrite between normalized parts. */
  lemma CleanTwoTriggers(s: string, a: string, c: char, b: string, d: char, e: string)
    requires Normalized(a) && Normalized(b) && Normalized(e)
    requires s == a + [c] + (b + [d] + e)
    ensures Clean(s) == a + CleanChar(c) + (b + CleanChar(d) + e)
  {
    CleanAround(a, c, b + [d] + e);
    CleanOneTrigger(b + [d] + e, b, d, e);
  }

  /** A name with three characters to rewrite between normalized parts. */
  lemma CleanThreeTriggers(s: string, a: string, c: char, b: string, d: char, e: string, f: char, g: string)
    requires Normalized(a) && Normalized(b) && Normalized(e) && Normalized(g)
    requires s == a + [c] + (b + [d] + (e + [f] + g))
    ensures Clean(s) == a + CleanChar(c) + (b + CleanChar(d) + (e + CleanChar(f) + g))
  {
    CleanAround(a, c, b + [d] + (e + [f] + g));
    CleanTwoTriggers(b + [d] + (e + [f] + g), b, d, e, f, g);
  }

  /** A space between two normalized parts becomes an underscore. */
  lemma CleanSpaceJoin(a: string, b: string)
    requires Normalized(a) && Normalized(b)
    ensures Clean(a + " " + b) == a + "_" + b
  {
    CleanOneTrigger(a + " " + b, a, ' ', b);
    assert CleanChar(' ') == "_";
  }

  /**
    The cleaner is not injective: joining two normalized parts with a space
    or with an underscore gives two names that clean to the same one.
  */
  lemma CleanNotInjective(a: string, b: string)
    requires Normalized(a) && Normalized(b)
    ensures a + " " + b != a + "_" + b
    ensures Clean(a + " " + b) == Clean(a + "_" + b)
  {
    var spaced, joined := a + " " + b, a + "_" + b;
    assert spaced[|a|] != joined[|a|];
    CleanSpaceJoin(a, b);
    NormalizedJoin(a, b);
    CleanFixedPoints(joined);
  }

  lemma NormalizedJoin(a: string, b: string)
    requires Normalized(a) && Normalized(b)
    ensures Normalized(a + "_" + b)
  {
    var joined := a + "_" + b;
    forall i | 0 <= i < |joined| ensures !IsTrigger(joined[i]) {
      if i < |a| {
        assert joined[i] == a[i];
      } else if i > |a| {
        assert joined[i] == b[i - |a| - 1];
      }
    }
  }

}
