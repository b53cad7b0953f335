/**
 * The tone adapter. For students it replaces two stock phrases and then
 * annotates every dollar integer with a coffee-cup comparison; every other
 * user type gets the message back unchanged.
 */
module ToneAdapter {
  import opened Text

  const YouShould := "You should"
  const YouMightWantTo := "You might want to"
  const ItIsRecommended := "It is recommended"
  const ItsAGoodIdeaTo := "It's a good idea to"
  /** The raw template keeps the backslash before the apostrophe, and so does `re`'s template expansion. */
  const CoffeeOpen := " (that\\'s like "
  const CoffeeClose := " cups of coffee! \U{2615})"

  /** Python's `s.replace(p, r)`: left to right, non-overlapping. */
  function Replace(s: string, p: string, r: string): (t: string)
    requires |p| > 0
    ensures !Occurs(p, s) ==> t == s
    ensures |s| > 0 && s[0] != p[0] ==> |t| > 0 && t[0] == s[0]
    decreases |s|
  {
    if StartsWith(s, p) then
      assert s[0..] == s;
      r + Replace(s[|p|..], p, r)
    else if |s| == 0 then []
    else
      NoOccurrenceInSuffix(p, s, 1);
      [s[0]] + Replace(s[1..], p, r)
  }

  /** Regex `\d`. */
  predicate IsDigit(c: char) {
    '0' <= c <= '9'
  }

  predicate AllDigits(d: string) {
    forall k :: 0 <= k < |d| ==> IsDigit(d[k])
  }

  /** The greedy `\d+` at the start of `s`: the longest prefix of digits. */
  function DigitRun(s: string): (d: string)
    ensures StartsWith(s, d) && AllDigits(d)
    ensures |d| == |s| || !IsDigit(s[|d|])
    decreases |s|
  {
    if |s| > 0 && IsDigit(s[0]) then [s[0]] + DigitRun(s[1..]) else []
  }

  /** The text put after `$<digits>`. */
  function Annotation(d: string): string {
    CoffeeOpen + d + CoffeeClose
  }

  /** A `$` followed by a digit starts `s`. */
  predicate DollarAmountAt(s: string) {
    |s| >= 2 && s[0] == '$' && IsDigit(s[1])
  }

  /** `re.sub(r'\$(\d+)', r'$\1 (that\'s like \1 cups of coffee! ☕)', s)`. */
  function Coffee(s: string): (t: string)
    ensures |s| > 0 ==> |t| > 0 && t[0] == s[0]
    decreases |s|
  {
    if DollarAmountAt(s) then
      var d := DigitRun(s[1..]);
      "$" + d + Annotation(d) + Coffee(s[1 + |d|..])
    else if |s| == 0 then []
    else [s[0]] + Coffee(s[1..])
  }

  /** The inverse of `Coffee`: drops the annotation after each annotated dollar amount. */
  function StripCoffee(t: string): string
    decreases |t|
  {
    if DollarAmountAt(t) && StartsWith(t[1 + |DigitRun(t[1..])|..], Annotation(DigitRun(t[1..]))) then
      var d := DigitRun(t[1..]);
      "$" + d + StripCoffee(t[1 + |d| + |Annotation(d)|..])
    else if |t| == 0 then []
    else [t[0]] + StripCoffee(t[1..])
  }

  /** The two phrase replacements, in order. */
  function ReplacePhrases(message: string): string {
    Replace(Replace(message, YouShould, YouMightWantTo), ItIsRecommended, ItsAGoodIdeaTo)
  }

  /** `adapt_tone(message, user_type)`. */
  function AdaptTone(message: string, userType: string): (r: string)
    ensures userType != "student" ==> r == message
  {
    if userType == "student" then Coffee(ReplacePhrases(message)) else message
  }

  // ---- The maximal digit run ----

  /** The digit run of `d + x` is `d` when `x` does not continue it. */
  lemma {:induction false} DigitRunOfPrefix(d: string, x: string)
    requires AllDigits(d) && (|x| == 0 || !IsDigit(x[0]))
    ensures DigitRun(d + x) == d
    decreases |d|
  {
    if |d| > 0 {
      assert (d + x)[1..] == d[1..] + x;
      DigitRunOfPrefix(d[1..], x);
    } else {
      assert d + x == x;
    }
  }

  // ---- Replace removes its pattern ----

  /**
   * If the output of `Replace` starts with the tail `q[k..]`, so did its
   * input, provided the replacement's first character is not in `q[1..]`.
   */
  lemma {:induction false} ReplaceKeepsStart(x: string, p: string, r: string, q: string, k: nat)
    requires |p| > 0 && |r| > 0 && 1 <= k <= |q|
    requires r[0] !in q[1..]
    ensures StartsWith(Replace(x, p, r), q[k..]) ==> StartsWith(x, q[k..])
    decreases |x|
  {
    var t := Replace(x, p, r);
    if k == |q| {
      assert q[k..] == [];
    } else if StartsWith(x, p) {
      assert t[0] == r[0];
      assert q[k..][0] == q[1..][k - 1];
    } else if |x| > 0 {
      ReplaceKeepsStart(x[1..], p, r, q, k + 1);
      assert t == [x[0]] + Replace(x[1..], p, r);
      assert q[k..][1..] == q[k + 1..];
      ConsStart(x[0], Replace(x[1..], p, r), q[k..]);
      ConsStart(x[0], x[1..], q[k..]);
      assert [x[0]] + x[1..] == x;
    }
  }

  /**
   * `Replace(s, p, r)` leaves no occurrence of `p`, given that `r` neither
   * starts with `p` nor is a start of it, that `p[0]` does not occur in `r`
   * after its first character, and that `r[0]` does not occur in `p` after
   * its first character.
   */
  lemma {:induction false} ReplaceRemoves(s: string, p: string, r: string)
    requires |p| > 0 && |r| > 0
    requires !StartsWith(r, p) && !StartsWith(p, r)
    requires p[0] !in r[1..] && r[0] !in p[1..]
    ensures !Occurs(p, Replace(s, p, r))
    decreases |s|
  {
    if StartsWith(s, p) {
      var rest := Replace(s[|p|..], p, r);
      ReplaceRemoves(s[|p|..], p, r);
      ReplacementStartsNoMatch(r, rest, p);
    } else if |s| > 0 {
      var rest := Replace(s[1..], p, r);
      ReplaceRemoves(s[1..], p, r);
      ReplaceKeepsStart(s[1..], p, r, p, 1);
      ConsStart(s[0], rest, p);
      ConsStart(s[0], s[1..], p);
      assert [s[0]] + s[1..] == s;
      NoOccurrenceCons(s[0], rest, p);
    }
  }

  /** The replacement put before a text without `p` does not form `p`, under the side conditions of `ReplaceRemoves`. */
  lemma ReplacementStartsNoMatch(r: string, u: string, p: string)
    requires |p| > 0 && |r| > 0
    requires !StartsWith(r, p) && !StartsWith(p, r) && p[0] !in r[1..]
    requires !Occurs(p, u)
    ensures !Occurs(p, r + u)
  {
    NoOccurrenceAfter(r[1..], u, p);
    ConcatStart(r, u, p);
    assert r + u == [r[0]] + (r[1..] + u);
    NoOccurrenceCons(r[0], r[1..] + u, p);
  }

  /**
   * `Replace(s, p, r)` creates no occurrence of another text `q` absent from
   * `s`, given that `q[0]` does not occur in `r` and `r[0]` does not occur
   * in `q` after its first character.
   */
  lemma {:induction false} ReplacePreserves(s: string, p: string, r: string, q: string)
    requires |p| > 0 && |r| > 0 && |q| > 0
    requires q[0] !in r && r[0] !in q[1..]
    requires !Occurs(q, s)
    ensures !Occurs(q, Replace(s, p, r))
    decreases |s|
  {
    if StartsWith(s, p) {
      NoOccurrenceInSuffix(q, s, |p|);
      ReplacePreserves(s[|p|..], p, r, q);
      NoOccurrenceAfter(r, Replace(s[|p|..], p, r), q);
    } else if |s| > 0 {
      var rest := Replace(s[1..], p, r);
      NoOccurrenceInSuffix(q, s, 1);
      ReplacePreserves(s[1..], p, r, q);
      ReplaceKeepsStart(s[1..], p, r, q, 1);
      ConsStart(s[0], rest, q);
      ConsStart(s[0], s[1..], q);
      assert [s[0]] + s[1..] == s;
      assert s[0..] == s;
      NoOccurrenceCons(s[0], rest, q);
    }
  }

  // ---- The coffee pass ----

  /** The annotation text contains no `$`. */
  lemma NoDollarInAnnotationText()
    ensures '$' !in CoffeeOpen && '$' !in CoffeeClose
  {
  }

  /** After the `$` of an annotated amount come its digits and its annotation, and no other `$`. */
  lemma AnnotatedAmountTail(d: string)
    requires AllDigits(d)
    ensures var a := "$" + d + Annotation(d);
      a[1..] == d + Annotation(d) && '$' !in a[1..]
  {
    var a := "$" + d + Annotation(d);
    assert a[1..] == d + CoffeeOpen + d + CoffeeClose;
    NoDollarInAnnotationText();
  }

  /** Every character of an annotated amount is `$`, a digit, or from the annotation text. */
  lemma AnnotatedAmountChars(d: string)
    requires AllDigits(d)
    ensures forall c :: c in "$" + d + Annotation(d) ==>
      c == '$' || IsDigit(c) || c in CoffeeOpen || c in CoffeeClose
  {
    var a := "$" + d + Annotation(d);
    assert a == "$" + d + CoffeeOpen + d + CoffeeClose;
    forall c | c in a
      ensures c == '$' || IsDigit(c) || c in CoffeeOpen || c in CoffeeClose
    {
      if c in d {
        var k :| 0 <= k < |d| && d[k] == c;
        assert IsDigit(d[k]);
      }
    }
  }

  /** A dollar amount at the start of `s` splits it into `$`, its digit run, and the rest. */
  lemma DollarAmountSplit(s: string)
    requires DollarAmountAt(s)
    ensures var d := DigitRun(s[1..]);
      0 < |d| && s == "$" + d + s[1 + |d|..]
  {
    var d := DigitRun(s[1..]);
    assert s[1..][..|d|] == d;
    assert s == [s[0]] + s[1..][..|d|] + s[1 + |d|..];
  }

  /** If the output of `Coffee` starts with the tail `q[k..]`, so did its input, when `q` has no `$` after its head. */
  lemma {:induction false} CoffeeKeepsStart(x: string, q: string, k: nat)
    requires 1 <= k <= |q| && '$' !in q[1..]
    ensures StartsWith(Coffee(x), q[k..]) ==> StartsWith(x, q[k..])
    decreases |x|
  {
    var t := Coffee(x);
    if k == |q| {
      assert q[k..] == [];
    } else if DollarAmountAt(x) {
      assert t[0] == '$';
      assert q[k..][0] == q[1..][k - 1];
    } else if |x| > 0 {
      CoffeeKeepsStart(x[1..], q, k + 1);
      assert t == [x[0]] + Coffee(x[1..]);
      assert q[k..][1..] == q[k + 1..];
      ConsStart(x[0], Coffee(x[1..]), q[k..]);
      ConsStart(x[0], x[1..], q[k..]);
      assert [x[0]] + x[1..] == x;
    }
  }

  /**
   * The coffee pass creates no occurrence of a text `q` absent from its
   * input, when `q` has no `$` and starts with a character that is neither a
   * digit nor part of the annotation.
   */
  lemma {:induction false} CoffeePreserves(s: string, q: string)
    requires |q| > 0 && '$' !in q && !IsDigit(q[0])
    requires q[0] !in CoffeeOpen && q[0] !in CoffeeClose
    requires !Occurs(q, s)
    ensures !Occurs(q, Coffee(s))
    decreases |s|
  {
    if DollarAmountAt(s) {
      var d := DigitRun(s[1..]);
      var a := "$" + d + Annotation(d);
      DollarAmountSplit(s);
      AnnotatedAmountChars(d);
      NoOccurrenceInSuffix(q, s, 1 + |d|);
      CoffeePreserves(s[1 + |d|..], q);
      assert q[0] !in a;
      NoOccurrenceAfter(a, Coffee(s[1 + |d|..]), q);
    } else if |s| > 0 {
      var rest := Coffee(s[1..]);
      NoOccurrenceInSuffix(q, s, 1);
      CoffeePreserves(s[1..], q);
      CoffeeKeepsStart(s[1..], q, 1);
      ConsStart(s[0], rest, q);
      ConsStart(s[0], s[1..], q);
      assert [s[0]] + s[1..] == s;
      assert s[0..] == s;
      NoOccurrenceCons(s[0], rest, q);
    }
  }

  /** `StripCoffee` on an annotated amount keeps the amount and drops its annotation. */
  lemma StripAnnotated(d: string, u: string)
    requires 0 < |d| && AllDigits(d)
    ensures StripCoffee("$" + d + Annotation(d) + u) == "$" + d + StripCoffee(u)
  {
    var t := "$" + d + Annotation(d) + u;
    assert t[1..] == d + (Annotation(d) + u);
    DigitRunOfPrefix(d, Annotation(d) + u);
    assert t[1 + |d|..] == Annotation(d) + u;
    assert t[1 + |d| + |Annotation(d)|..] == u;
  }

  /** `StripCoffee` passes over a character that does not start an amount. */
  lemma StripPlain(c: char, u: string)
    requires !DollarAmountAt([c] + u)
    ensures StripCoffee([c] + u) == [c] + StripCoffee(u)
  {
    assert ([c] + u)[1..] == u;
  }

  /** Stripping the annotations from the coffee pass gives back its input: nothing else changed. */
  lemma {:induction false} StripCoffeeInverse(s: string)
    ensures StripCoffee(Coffee(s)) == s
    decreases |s|
  {
    if DollarAmountAt(s) {
      var d := DigitRun(s[1..]);
      var rest := s[1 + |d|..];
      DollarAmountSplit(s);
      StripCoffeeInverse(rest);
      StripAnnotated(d, Coffee(rest));
    } else if |s| > 0 {
      StripCoffeeInverse(s[1..]);
      var t := Coffee(s[1..]);
      assert Coffee(s) == [s[0]] + t;
      assert |s| >= 2 ==> t[0] == s[1];
      StripPlain(s[0], t);
      assert [s[0]] + s[1..] == s;
    }
  }

  /** Where `u` starts with `$` and a digit, the whole digit run is followed by the annotation restating it. */
  predicate AnnotatedIfAmount(u: string) {
    DollarAmountAt(u) ==> StartsWith(u[1 + |DigitRun(u[1..])|..], Annotation(DigitRun(u[1..])))
  }

  /** Right after `$` and the digits of an annotated amount comes the annotation. */
  lemma AnnotatedAmountStart(d: string, u: string)
    requires 0 < |d| && AllDigits(d)
    ensures AnnotatedIfAmount("$" + d + Annotation(d) + u)
  {
    var t := "$" + d + Annotation(d) + u;
    assert t[1..] == d + (Annotation(d) + u);
    DigitRunOfPrefix(d, Annotation(d) + u);
    assert t[1 + |d|..] == Annotation(d) + u;
  }

  /** Inside an annotated amount, past its `$`, no other amount starts. */
  lemma NoAmountInsideAnnotated(d: string, u: string, i: nat)
    requires AllDigits(d) && 0 < i < |"$" + d + Annotation(d)|
    ensures !DollarAmountAt(("$" + d + Annotation(d) + u)[i..])
  {
    var a := "$" + d + Annotation(d);
    AnnotatedAmountTail(d);
    assert (a + u)[i..][0] == a[1..][i - 1];
  }

  /** Every position inside an annotated amount meets `AnnotatedIfAmount`. */
  lemma AnnotatedAmountAt(d: string, u: string, i: nat)
    requires 0 < |d| && AllDigits(d) && i < |"$" + d + Annotation(d)|
    ensures AnnotatedIfAmount(("$" + d + Annotation(d) + u)[i..])
  {
    if i == 0 {
      AnnotatedAmountStart(d, u);
      assert ("$" + d + Annotation(d) + u)[0..] == "$" + d + Annotation(d) + u;
    } else {
      NoAmountInsideAnnotated(d, u, i);
    }
  }

  /**
   * Wherever the output of the coffee pass has `$` and a digit, the whole
   * digit run is followed by the annotation restating those digits.
   */
  lemma {:induction false} CoffeeAnnotatesAt(s: string, i: nat)
    requires i <= |Coffee(s)|
    ensures AnnotatedIfAmount(Coffee(s)[i..])
    decreases |s|
  {
    var t := Coffee(s);
    if DollarAmountAt(s) {
      var d := DigitRun(s[1..]);
      var a := "$" + d + Annotation(d);
      var rest := Coffee(s[1 + |d|..]);
      DollarAmountSplit(s);
      assert t == a + rest;
      if i < |a| {
        AnnotatedAmountAt(d, rest, i);
      } else {
        assert t[i..] == rest[i - |a|..];
        CoffeeAnnotatesAt(s[1 + |d|..], i - |a|);
      }
    } else if |s| > 0 {
      var rest := Coffee(s[1..]);
      assert t == [s[0]] + rest;
      if i > 0 {
        assert t[i..] == rest[i - 1..];
        CoffeeAnnotatesAt(s[1..], i - 1);
      } else {
        assert |s| >= 2 ==> rest[0] == s[1];
      }
    }
  }

  /** The first replacement meets the side conditions of `ReplaceRemoves`. */
  lemma YouShouldFacts()
    ensures !StartsWith(YouMightWantTo, YouShould) && !StartsWith(YouShould, YouMightWantTo)
    ensures YouShould[0] !in YouMightWantTo[1..] && YouMightWantTo[0] !in YouShould[1..]
  {
    assert YouMightWantTo[..|YouShould|][4] != YouShould[4];
  }

  /** The second replacement meets the side conditions of `ReplaceRemoves`. */
  lemma ItIsRecommendedFacts()
    ensures !StartsWith(ItsAGoodIdeaTo, ItIsRecommended) && !StartsWith(ItIsRecommended, ItsAGoodIdeaTo)
    ensures ItIsRecommended[0] !in ItsAGoodIdeaTo[1..] && ItsAGoodIdeaTo[0] !in ItIsRecommended[1..]
  {
    ItIsRecommendedDiffers();
    ItIsRecommendedHeads();
  }

  lemma ItIsRecommendedDiffers()
    ensures !StartsWith(ItsAGoodIdeaTo, ItIsRecommended) && !StartsWith(ItIsRecommended, ItsAGoodIdeaTo)
  {
    assert ItsAGoodIdeaTo[..|ItIsRecommended|][2] != ItIsRecommended[2];
  }

  lemma ItIsRecommendedHeads()
    ensures ItIsRecommended[0] !in ItsAGoodIdeaTo[1..] && ItsAGoodIdeaTo[0] !in ItIsRecommended[1..]
  {
  }

  /** The second replacement meets the side conditions of `ReplacePreserves` for the first phrase. */
  lemma SecondReplacementKeepsFirstOut()
    ensures YouShould[0] !in ItsAGoodIdeaTo && ItsAGoodIdeaTo[0] !in YouShould[1..]
  {
  }

  /** Neither phrase can be formed by the coffee pass. */
  lemma CoffeeFacts()
    ensures '$' !in YouShould && !IsDigit(YouShould[0])
    ensures YouShould[0] !in CoffeeOpen && YouShould[0] !in CoffeeClose
    ensures '$' !in ItIsRecommended && !IsDigit(ItIsRecommended[0])
    ensures ItIsRecommended[0] !in CoffeeOpen && ItIsRecommended[0] !in CoffeeClose
  {
    CoffeeFactsOpen();
    CoffeeFactsClose();
  }

  lemma CoffeeFactsOpen()
    ensures YouShould[0] !in CoffeeOpen && ItIsRecommended[0] !in CoffeeOpen
  {
  }

  lemma CoffeeFactsClose()
    ensures YouShould[0] !in CoffeeClose && ItIsRecommended[0] !in CoffeeClose
  {
  }

  /**
   * `adapt_tone` for a student: neither stock phrase remains, every `$`
   * amount is followed by its coffee annotation, and removing those
   * annotations gives exactly the phrase-replaced message.
   */
  lemma AdaptToneStudent(message: string)
    ensures var r := AdaptTone(message, "student");
      !Occurs(YouShould, r) && !Occurs(ItIsRecommended, r) &&
      StripCoffee(r) == ReplacePhrases(message) &&
      forall i :: 0 <= i <= |r| ==> AnnotatedIfAmount(r[i..])
  {
    var once := Replace(message, YouShould, YouMightWantTo);
    var twice := Replace(once, ItIsRecommended, ItsAGoodIdeaTo);
    YouShouldFacts();
    ItIsRecommendedFacts();
    SecondReplacementKeepsFirstOut();
    CoffeeFacts();
    ReplaceRemoves(message, YouShould, YouMightWantTo);
    ReplacePreserves(once, ItIsRecommended, ItsAGoodIdeaTo, YouShould);
    ReplaceRemoves(once, ItIsRecommended, ItsAGoodIdeaTo);
    CoffeePreserves(twice, YouShould);
    CoffeePreserves(twice, ItIsRecommended);
    StripCoffeeInverse(twice);
    forall i | 0 <= i <= |Coffee(twice)|
      ensures AnnotatedIfAmount(Coffee(twice)[i..])
    {
      CoffeeAnnotatesAt(twice, i);
    }
  }

  /** `adapt_tone` keeps the first character of a message that starts with neither phrase. */
  lemma AdaptToneKeepsFirst(message: string, userType: string)
    requires |message| > 0 && message[0] != YouShould[0] && message[0] != ItIsRecommended[0]
    ensures |AdaptTone(message, userType)| > 0 && AdaptTone(message, userType)[0] == message[0]
  {
  }

  /** A message shorter than either phrase has nothing to replace. */
  lemma ShortMessageKeepsPhrases(s: string)
    requires |s| < |YouShould|
    ensures ReplacePhrases(s) == s
  {
    assert !Occurs(YouShould, s);
    assert !Occurs(ItIsRecommended, s);
  }

  lemma CoffeeThousandsSeparator()
    ensures Coffee("$2,500") == "$2" + Annotation("2") + ",500"
  {
    assert DigitRun("2,500") == "2";
  }

  /**
   * The digit run stops at a thousands separator: for a student "$2,500"
   * annotates only "$2", as two cups of coffee.
   */
  lemma AdaptToneThousandsSeparator()
    ensures AdaptTone("$2,500", "student") == "$2" + Annotation("2") + ",500"
  {
    CoffeeThousandsSeparator();
    ShortMessageKeepsPhrases("$2,500");
  }
}
