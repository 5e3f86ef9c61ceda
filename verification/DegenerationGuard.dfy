// Repetition-loop detection on streamed text.
module DegenerationGuard {
  import opened Text

  const REPEAT_THRESHOLD := 12
  const MIN_SENTENCE_LEN := 5
  const MAX_CHECK_TEXT := 40000
  const CHECK_INTERVAL := 2000
  const RATIO_FLOOR := 8

  // ---- Sentences ------------------------------------------------------------------

  predicate IsBreak(c: char) {
    c in ".!?\n;"
  }

  predicate Unbroken(s: string) {
    forall i :: 0 <= i < |s| ==> !IsBreak(s[i])
  }

  function WordLen(s: string): (k: nat)
    ensures k <= |s| && Unbroken(s[..k])
    ensures k < |s| ==> IsBreak(s[k])
  {
    if s == "" || IsBreak(s[0]) then 0
    else
      var k := WordLen(s[1..]);
      assert s[..k + 1] == [s[0]] + s[1..][..k];
      k + 1
  }

  function BreakLen(s: string): (k: nat)
    ensures k <= |s| && forall i :: 0 <= i < k ==> IsBreak(s[i])
    ensures k < |s| ==> !IsBreak(s[k])
  {
    if s == "" || !IsBreak(s[0]) then 0 else BreakLen(s[1..]) + 1
  }

  // The text cut at every maximal run of sentence breaks.
  function Split(s: string): seq<string>
    decreases |s|
  {
    var k := WordLen(s);
    if k == |s| then [s] else [s[..k]] + Split(s[k + BreakLen(s[k..])..])
  }

  function Kept(parts: seq<string>): seq<string> {
    if parts == [] then []
    else
      var s := Strip(parts[|parts| - 1]);
      Kept(parts[..|parts| - 1]) + if |s| < MIN_SENTENCE_LEN then [] else [s]
  }

  function Count(ss: seq<string>, s: string): nat {
    if ss == [] then 0 else Count(ss[..|ss| - 1], s) + if ss[|ss| - 1] == s then 1 else 0
  }

  function Window(text: string): string {
    if |text| <= MAX_CHECK_TEXT then text else text[|text| - MAX_CHECK_TEXT..]
  }

  function Sentences(text: string): seq<string> {
    Kept(Split(Window(text)))
  }

  // ---- The verdict --------------------------------------------------------------------

  predicate Repeats(ss: seq<string>, s: string) {
    Count(ss, s) >= REPEAT_THRESHOLD
  }

  // At least three tenths of all sentences, and at least RATIO_FLOOR of them.
  predicate Dominates(ss: seq<string>, s: string) {
    Count(ss, s) >= RATIO_FLOOR && 10 * Count(ss, s) >= 3 * |ss|
  }

  ghost predicate Degenerate(text: string) {
    exists s :: Repeats(Sentences(text), s) || Dominates(Sentences(text), s)
  }

  lemma {:induction false} CountIsMultiplicity(ss: seq<string>, s: string)
    ensures Count(ss, s) == multiset(ss)[s]
  {
    if ss == [] {
    } else {
      CountIsMultiplicity(ss[..|ss| - 1], s);
      assert ss == ss[..|ss| - 1] + [ss[|ss| - 1]];
    }
  }

  ghost predicate Loops(ss: seq<string>, s: string) {
    var count := multiset(ss)[s];
    count >= 12 || (count >= 8 && 10 * count >= 3 * |ss|)
  }

  lemma {:induction false} LoopsIff(ss: seq<string>, s: string)
    ensures Loops(ss, s) <==> Repeats(ss, s) || Dominates(ss, s)
  {
    CountIsMultiplicity(ss, s);
  }

  // A text is degenerate exactly when one sentence occurs twelve times, or at least eight
  // times and in three tenths of all.
  lemma {:induction false} DegenerateIff(text: string)
    ensures Degenerate(text) <==> exists s :: Loops(Sentences(text), s)
  {
    var ss := Sentences(text);
    if Degenerate(text) {
      var s :| Repeats(ss, s) || Dominates(ss, s);
      LoopsIff(ss, s);
    }
    if s :| Loops(ss, s) {
      LoopsIff(ss, s);
    }
  }

  // Of a longer text only the last 40000 characters count, and of those the trimmed
  // stretches of five characters or more.
  lemma {:induction false} SentencesSpec(text: string)
    ensures |text| > 40_000 ==> Sentences(text) == Sentences(text[|text| - 40_000..])
    ensures forall s :: s in Sentences(text) ==> |s| >= 5 && Trimmed(s)
  {
    KeptAreLong(Split(Window(text)));
  }

  lemma {:induction false} KeptAreLong(parts: seq<string>)
    ensures forall s :: s in Kept(parts) ==> |s| >= 5 && Trimmed(s)
  {
    if parts == [] {
    } else {
      KeptAreLong(parts[..|parts| - 1]);
      var left, right := StripSpec(parts[|parts| - 1]);
    }
  }

  type Tally = map<string, nat>

  function Tallied(counts: Tally, s: string): nat {
    if s in counts then counts[s] else 0
  }

  // First key with the largest count, as `max` picks it.
  method MostFrequent(order: seq<string>, counts: Tally) returns (top: string)
    requires order != [] && forall s :: s in order ==> s in counts
    ensures top in order && forall s :: s in order ==> counts[s] <= counts[top]
  {
    top := order[0];
    for i := 1 to |order|
      invariant top in order && forall k :: 0 <= k < i ==> counts[order[k]] <= counts[top]
    {
      if counts[order[i]] > counts[top] {
        top := order[i];
      }
    }
  }

  function Clip(s: string): (r: string)
    ensures r <= s && |r| == if |s| < 80 then |s| else 80
  {
    if |s| <= 80 then s else s[..80]
  }

  // Twelve, as soon as a sentence is seen that often; otherwise the whole count of one
  // that occurs at least 8 times and makes up at least three tenths of the sentences.
  ghost predicate Reported(ss: seq<string>, s: string, n: nat) {
    n <= Count(ss, s) && (n == 12 || (n == Count(ss, s) && n >= 8 && 10 * n >= 3 * |ss|))
  }

  // The dictionary holds exactly the counts of the sentences seen so far.
  ghost predicate Tallies(counts: Tally, order: seq<string>, ss: seq<string>) {
    (forall s :: s in order <==> s in counts) && (forall s :: Tallied(counts, s) == Count(ss, s))
  }

  ghost predicate NoneRepeats(ss: seq<string>) {
    forall s :: !Repeats(ss, s)
  }

  method DetectDegeneration(text: string) returns (hit: Option<(string, nat)>)
    ensures hit.Some? <==> Degenerate(text)
    ensures hit.Some? ==> exists s :: hit.value.0 == Clip(s) && Reported(Sentences(text), s, hit.value.1)
  {
    if |text| < MIN_SENTENCE_LEN {
      ShortIsFine(text);
      return None;
    }
    var parts := Split(Window(text));
    var counts: Tally, order, total := map[], [], 0;
    for i := 0 to |parts|
      invariant total == |Kept(parts[..i])|
      invariant Tallies(counts, order, Kept(parts[..i]))
      invariant NoneRepeats(Kept(parts[..i]))
    {
      KeptStep(parts, i);
      var s := Strip(parts[i]);
      if |s| < MIN_SENTENCE_LEN {
        continue;
      }
      total := total + 1;
      ghost var seen := Kept(parts[..i]);
      TallyStep(counts, order, seen, s);
      if s !in counts {
        order := order + [s];
      }
      counts := counts[s := Tallied(counts, s) + 1];
      if counts[s] >= REPEAT_THRESHOLD {
        EarlyHit(text, parts, i, s, counts[s]);
        return Some((Clip(s), counts[s]));
      }
      StillNone(seen, s);
    }
    assert parts[..|parts|] == parts;
    if total < RATIO_FLOOR {
      FewAreFine(text);
      return None;
    }
    SomeTallied(counts, order, Sentences(text));
    var top := MostFrequent(order, counts);
    TopDecides(text, counts, order, top);
    if counts[top] >= RATIO_FLOOR && 10 * counts[top] >= 3 * total {
      return Some((Clip(top), counts[top]));
    }
    return None;
  }

  lemma {:induction false} KeptStep(parts: seq<string>, i: nat)
    requires i < |parts|
    ensures var s := Strip(parts[i]);
            Kept(parts[..i + 1]) == if |s| < MIN_SENTENCE_LEN then Kept(parts[..i]) else Kept(parts[..i]) + [s]
  {
    assert parts[..i + 1][..i] == parts[..i];
  }

  lemma {:induction false} TallyStep(counts: Tally, order: seq<string>, ss: seq<string>, s: string)
    requires Tallies(counts, order, ss)
    ensures Tallies(counts[s := Tallied(counts, s) + 1], if s in counts then order else order + [s], ss + [s])
  {
    CountGrows(ss, s);
  }

  lemma {:induction false} StillNone(ss: seq<string>, s: string)
    requires NoneRepeats(ss) && !Repeats(ss + [s], s)
    ensures NoneRepeats(ss + [s])
  {
    CountGrows(ss, s);
    forall t ensures !Repeats(ss + [s], t) {
      assert !Repeats(ss, t);
    }
  }

  // The count that reaches the threshold early is a lower bound for the whole window.
  lemma {:induction false} EarlyHit(text: string, parts: seq<string>, i: nat, s: string, n: nat)
    requires parts == Split(Window(text)) && i < |parts| && n == Count(Kept(parts[..i + 1]), s)
    requires n >= REPEAT_THRESHOLD && Kept(parts[..i + 1]) == Kept(parts[..i]) + [s] && NoneRepeats(Kept(parts[..i]))
    ensures Degenerate(text) && Reported(Sentences(text), s, n)
  {
    KeptPrefix(parts, i + 1, s);
    CountGrows(Kept(parts[..i]), s);
    assert !Repeats(Kept(parts[..i]), s);
    assert Repeats(Sentences(text), s);
  }

  lemma {:induction false} FewAreFine(text: string)
    requires |Sentences(text)| < RATIO_FLOOR
    ensures !Degenerate(text)
  {
    forall s ensures Count(Sentences(text), s) < RATIO_FLOOR {
      CountBound(Sentences(text), s);
    }
  }

  lemma {:induction false} SomeTallied(counts: Tally, order: seq<string>, ss: seq<string>)
    requires Tallies(counts, order, ss) && ss != []
    ensures order != []
  {
    SomeCounted(ss);
    assert ss[|ss| - 1] in counts;
  }

  // When nothing repeats, the most frequent sentence decides.
  lemma {:induction false} TopDecides(text: string, counts: Tally, order: seq<string>, top: string)
    requires Tallies(counts, order, Sentences(text)) && NoneRepeats(Sentences(text)) && top in order
    requires forall s :: s in order ==> counts[s] <= counts[top]
    ensures counts[top] == Count(Sentences(text), top)
    ensures Degenerate(text) <==> Dominates(Sentences(text), top)
  {
    var ss := Sentences(text);
    assert counts[top] == Tallied(counts, top);
    if Degenerate(text) {
      var s :| Repeats(ss, s) || Dominates(ss, s);
      assert Count(ss, s) == Tallied(counts, s);
      assert s in order;
    }
  }

  lemma {:induction false} CountGrows(ss: seq<string>, s: string)
    ensures forall t :: Count(ss + [s], t) == Count(ss, t) + if t == s then 1 else 0
  {
    assert (ss + [s])[..|ss|] == ss;
  }

  lemma {:induction false} CountJoin(a: seq<string>, b: seq<string>, s: string)
    ensures Count(a + b, s) == Count(a, s) + Count(b, s)
  {
    if b == [] {
      assert a + b == a;
    } else {
      assert (a + b)[..|a + b| - 1] == a + b[..|b| - 1];
      CountJoin(a, b[..|b| - 1], s);
    }
  }

  lemma {:induction false} KeptJoin(a: seq<string>, b: seq<string>)
    ensures Kept(a + b) == Kept(a) + Kept(b)
  {
    if b == [] {
      assert a + b == a;
    } else {
      assert (a + b)[..|a + b| - 1] == a + b[..|b| - 1];
      KeptJoin(a, b[..|b| - 1]);
    }
  }

  lemma {:induction false} KeptPrefix(parts: seq<string>, i: nat, s: string)
    requires i <= |parts|
    ensures Count(Kept(parts[..i]), s) <= Count(Kept(parts), s)
  {
    assert parts == parts[..i] + parts[i..];
    KeptJoin(parts[..i], parts[i..]);
    CountJoin(Kept(parts[..i]), Kept(parts[i..]), s);
  }

  lemma {:induction false} SomeCounted(ss: seq<string>)
    requires ss != []
    ensures Count(ss, ss[|ss| - 1]) > 0
  {
  }

  lemma {:induction false} CountBound(ss: seq<string>, s: string)
    ensures Count(ss, s) <= |ss|
  {
    if ss == [] {
    } else {
      CountBound(ss[..|ss| - 1], s);
    }
  }

  lemma {:induction false} KeptLength(parts: seq<string>)
    ensures |Kept(parts)| <= |parts|
  {
    if parts == [] {
    } else {
      KeptLength(parts[..|parts| - 1]);
    }
  }

  lemma {:induction false} SplitLength(s: string)
    ensures |Split(s)| <= |s| + 1
    decreases |s|
  {
    var k := WordLen(s);
    if k < |s| {
      var rest := s[k + BreakLen(s[k..])..];
      SplitLength(rest);
      assert Split(s) == [s[..k]] + Split(rest) && |rest| < |s|;
    }
  }

  // The length guard never hides a loop.
  lemma {:induction false} ShortIsFine(text: string)
    requires |text| < MIN_SENTENCE_LEN
    ensures !Degenerate(text)
  {
    SplitLength(text);
    KeptLength(Split(text));
    FewAreFine(text);
  }

  // ---- A loop at the end of the text is always caught ----------------------------------

  // The sentences of a text on its own, without a window.
  function Phrases(text: string): seq<string> {
    Kept(Split(text))
  }

  lemma {:induction false} WordEnds(s: string, t: string)
    requires Unbroken(s) && t != "" && IsBreak(t[0])
    ensures WordLen(s + t) == |s|
  {
    if s == "" {
      assert s + t == t;
    } else {
      assert (s + t)[1..] == s[1..] + t;
      WordEnds(s[1..], t);
    }
  }

  lemma {:induction false} BreaksEnd(s: string, t: string)
    requires forall i :: 0 <= i < |s| ==> IsBreak(s[i])
    ensures BreakLen(s + t) == |s| + BreakLen(t)
  {
    if s == "" {
      assert s + t == t;
    } else {
      assert (s + t)[1..] == s[1..] + t;
      BreaksEnd(s[1..], t);
    }
  }

  // A word, a run of breaks, and the rest.
  lemma {:induction false} SplitFirst(word: string, breaks: string, rest: string)
    requires Unbroken(word) && breaks != "" && forall i :: 0 <= i < |breaks| ==> IsBreak(breaks[i])
    ensures Split(word + breaks + rest) == [word] + Split(rest[BreakLen(rest)..])
  {
    Assoc(word, breaks, rest);
    WordEnds(word, breaks + rest);
    Slices(word, breaks + rest);
    BreaksEnd(breaks, rest);
    DropInto(word + breaks, rest, BreakLen(rest));
    SplitUnfold(word + breaks + rest, word, |breaks| + BreakLen(rest), rest[BreakLen(rest)..]);
  }

  lemma {:induction false} SplitUnfold(text: string, word: string, r: nat, after: string)
    requires |word| == WordLen(text) < |text| && word == text[..|word|]
    requires r == BreakLen(text[|word|..]) && after == text[|word| + r..]
    ensures Split(text) == [word] + Split(after)
  {
    assert text[|word| + BreakLen(text[|word|..])..] == after;
  }

  lemma {:induction false} Assoc<T>(a: seq<T>, b: seq<T>, c: seq<T>)
    ensures a + b + c == a + (b + c)
  {
  }

  lemma {:induction false} Slices(a: string, b: string)
    ensures (a + b)[..|a|] == a && (a + b)[|a|..] == b
  {
  }

  lemma {:induction false} DropInto(a: string, b: string, n: nat)
    requires n <= |b|
    ensures (a + b)[|a| + n..] == b[n..]
  {
  }

  lemma {:induction false} KeptOne(word: string)
    ensures Kept([word]) == if |Strip(word)| < MIN_SENTENCE_LEN then [] else [Strip(word)]
  {
    assert [word][..0] == [];
  }

  lemma {:induction false} PhrasesFirst(word: string, breaks: string, rest: string)
    requires Unbroken(word) && breaks != "" && forall i :: 0 <= i < |breaks| ==> IsBreak(breaks[i])
    ensures Phrases(word + breaks + rest) == Kept([word]) + Phrases(rest[BreakLen(rest)..])
  {
    SplitFirst(word, breaks, rest);
    KeptJoin([word], Split(rest[BreakLen(rest)..]));
  }

  // Leading breaks add no sentence.
  lemma {:induction false} LeadingBreaks(text: string)
    ensures Phrases(text) == Phrases(text[BreakLen(text)..])
  {
    var k := BreakLen(text);
    if k == 0 {
      assert text[0..] == text;
    } else {
      var rest := text[k..];
      PhrasesFirst("", text[..k], rest);
      assert "" + text[..k] + rest == text;
      assert BreakLen(rest) == 0 && rest[0..] == rest;
      KeptOne("");
    }
  }

  lemma {:induction false} PhrasesOfWord(word: string)
    requires Unbroken(word)
    ensures Phrases(word) == Kept([word])
  {
    assert WordLen(word) == |word|;
  }

  // A break anywhere parts the sentences before it from those after it.
  lemma {:induction false} PhrasesPart(x: string, c: char, y: string)
    requires IsBreak(c)
    ensures Phrases(x + [c] + y) == Phrases(x) + Phrases(y)
    decreases |x|
  {
    var k := WordLen(x);
    var word, tail := x[..k], x[k..];
    var j := BreakLen(tail);
    if j == |tail| {
      assert x == word + tail;
      PartAfterBreaks(word, tail, c, y);
    } else {
      PhrasesPart(tail[j..], c, y);
      PartAfterRun(word, tail[..j], tail[j..], c, y);
      Pieces(x, k, j);
    }
  }

  lemma {:induction false} Pieces(x: string, k: nat, j: nat)
    requires k + j <= |x|
    ensures x == x[..k] + x[k..][..j] + x[k..][j..]
  {
  }

  lemma {:induction false} PartAfterRun(word: string, breaks: string, rest: string, c: char, y: string)
    requires Unbroken(word) && breaks != "" && forall i :: 0 <= i < |breaks| ==> IsBreak(breaks[i])
    requires rest != "" && !IsBreak(rest[0])
    requires Phrases(rest + [c] + y) == Phrases(rest) + Phrases(y)
    ensures Phrases(word + breaks + rest + [c] + y) == Phrases(word + breaks + rest) + Phrases(y)
  {
    PhrasesAfterRun(word, breaks, rest);
    PhrasesAfterRun(word, breaks, rest + [c] + y);
    Assoc4(word + breaks, rest, [c], y);
    Assoc(Kept([word]), Phrases(rest), Phrases(y));
  }

  lemma {:induction false} Assoc4(a: string, b: string, c: string, d: string)
    ensures a + b + c + d == a + (b + c + d)
  {
  }

  lemma {:induction false} PartAfterBreaks(word: string, breaks: string, c: char, y: string)
    requires Unbroken(word) && IsBreak(c) && forall i :: 0 <= i < |breaks| ==> IsBreak(breaks[i])
    ensures Phrases(word + breaks + [c] + y) == Phrases(word + breaks) + Phrases(y)
  {
    PhrasesFirst(word, breaks + [c], y);
    Assoc(word, breaks, [c]);
    LeadingBreaks(y);
    WordAndBreaks(word, breaks);
  }

  lemma {:induction false} WordAndBreaks(word: string, breaks: string)
    requires Unbroken(word) && forall i :: 0 <= i < |breaks| ==> IsBreak(breaks[i])
    ensures Phrases(word + breaks) == Kept([word])
  {
    if breaks == "" {
      assert word + breaks == word;
      PhrasesOfWord(word);
    } else {
      PhrasesFirst(word, breaks, "");
      assert word + breaks + "" == word + breaks;
      PhrasesOfWord("");
      KeptOne("");
    }
  }

  lemma {:induction false} PhrasesAfterRun(word: string, breaks: string, rest: string)
    requires Unbroken(word) && breaks != "" && forall i :: 0 <= i < |breaks| ==> IsBreak(breaks[i])
    requires rest != "" && !IsBreak(rest[0])
    ensures Phrases(word + breaks + rest) == Kept([word]) + Phrases(rest)
  {
    PhrasesFirst(word, breaks, rest);
    assert BreakLen(rest) == 0 && rest[0..] == rest;
  }

  // A stretch of text and the break that ends it.
  datatype Piece = Piece(text: string, stop: char)

  function Spell(ps: seq<Piece>): string {
    if ps == [] then "" else ps[0].text + [ps[0].stop] + Spell(ps[1..])
  }

  // Nothing but copies of `s`, with any breaks and white space between them.
  predicate Loop(ps: seq<Piece>, s: string) {
    forall p :: p in ps ==> Unbroken(p.text) && IsBreak(p.stop) && (Strip(p.text) == s || Strip(p.text) == "")
  }

  function Copies(ps: seq<Piece>, s: string): nat {
    if ps == [] then 0 else (if Strip(ps[0].text) == s then 1 else 0) + Copies(ps[1..], s)
  }

  lemma {:induction false} LoopCounts(ps: seq<Piece>, s: string, b: string)
    requires |s| >= MIN_SENTENCE_LEN && Loop(ps, s)
    ensures Count(Phrases(Spell(ps) + b), s) >= Copies(ps, s)
  {
    if ps == [] {
    } else {
      var p, rest := ps[0], Spell(ps[1..]) + b;
      LoopCounts(ps[1..], s, b);
      Assoc(p.text + [p.stop], Spell(ps[1..]), b);
      PhrasesPart(p.text, p.stop, rest);
      PhrasesOfWord(p.text);
      KeptOne(p.text);
      CountJoin(Kept([p.text]), Phrases(rest), s);
      assert [s][..0] == [];
    }
  }

  // The part of a loop that stands on its own after the text `a`: all of it if a break
  // comes before it, else all but its first piece.
  function Clear(a: string, ps: seq<Piece>): seq<Piece> {
    if ps == [] || a == "" || IsBreak(a[|a| - 1]) then ps else ps[1..]
  }

  lemma {:induction false} ClearCounts(a: string, ps: seq<Piece>, s: string, b: string)
    requires |s| >= MIN_SENTENCE_LEN && Loop(ps, s)
    ensures Count(Phrases(a + Spell(ps) + b), s) >= Copies(Clear(a, ps), s)
  {
    if a == "" {
      LoopCounts(ps, s, b);
      assert a + Spell(ps) + b == Spell(ps) + b;
    } else if IsBreak(a[|a| - 1]) {
      LoopCounts(ps, s, b);
      CountAfter(a[..|a| - 1], a[|a| - 1], Spell(ps) + b, s);
      Assoc(a, Spell(ps), b);
      EndsIn(a);
    } else if ps != [] {
      LoopCounts(ps[1..], s, b);
      CountAfter(a + ps[0].text, ps[0].stop, Spell(ps[1..]) + b, s);
      Regroup(a, ps[0].text, [ps[0].stop], Spell(ps[1..]), b);
    }
  }

  lemma {:induction false} EndsIn(a: string)
    requires a != ""
    ensures a == a[..|a| - 1] + [a[|a| - 1]]
  {
  }

  lemma {:induction false} Regroup(a: string, t: string, stop: string, rest: string, b: string)
    ensures a + (t + stop + rest) + b == a + t + stop + (rest + b)
  {
  }

  lemma {:induction false} CountAfter(x: string, c: char, y: string, s: string)
    requires IsBreak(c)
    ensures Count(Phrases(x + [c] + y), s) >= Count(Phrases(y), s)
  {
    PhrasesPart(x, c, y);
    CountJoin(Phrases(x), Phrases(y), s);
  }

  // The window cuts into what comes before a loop, never into the loop.
  lemma {:induction false} WindowKeepsLoop(a: string, loop: string) returns (cut: nat)
    requires |loop| <= MAX_CHECK_TEXT
    ensures cut <= |a| && Window(a + loop) == a[cut..] + loop
  {
    cut := if |a + loop| <= MAX_CHECK_TEXT then 0 else |a + loop| - MAX_CHECK_TEXT;
  }

  lemma {:induction false} ClearAfterCut(a: string, cut: nat, ps: seq<Piece>, s: string)
    requires cut <= |a|
    ensures Copies(Clear(a[cut..], ps), s) >= Copies(Clear(a, ps), s)
  {
    if cut < |a| {
      assert a[cut..][|a[cut..]| - 1] == a[|a| - 1];
    }
  }

  // Whatever comes before and after it inside the window, a loop with twelve clear
  // copies of a sentence is caught.
  lemma {:induction false} LoopIsCaught(a: string, ps: seq<Piece>, s: string, b: string)
    requires |s| >= 5 && Loop(ps, s) && Copies(Clear(a, ps), s) >= 12
    requires |Spell(ps)| + |b| <= 40_000
    ensures Degenerate(a + Spell(ps) + b)
  {
    var cut := WindowKeepsLoop(a, Spell(ps) + b);
    assert a + Spell(ps) + b == a + (Spell(ps) + b);
    assert a[cut..] + (Spell(ps) + b) == a[cut..] + Spell(ps) + b;
    ClearAfterCut(a, cut, ps, s);
    ClearCounts(a[cut..], ps, s, b);
    assert Repeats(Sentences(a + Spell(ps) + b), s);
  }

  // Text checked less than 2000 characters ago, and passed.
  ghost predicate Watched(text: string) {
    exists c :: WatchedAt(text, c)
  }

  ghost predicate WatchedAt(text: string, c: int) {
    0 <= c <= |text| < c + 2000 && !Degenerate(text[..c])
  }

  // After twelve clear copies fewer than 2000 characters pass unnoticed.
  lemma {:induction false} LoopStopsSoon(text: string, a: string, ps: seq<Piece>, s: string, b: string)
    requires Watched(text) && text == a + Spell(ps) + b
    requires |s| >= 5 && Loop(ps, s) && Copies(Clear(a, ps), s) >= 12
    requires |Spell(ps)| + |b| <= 40_000
    ensures |b| < 2000
  {
    var c :| WatchedAt(text, c);
    if |b| >= 2000 {
      var n := c - |a| - |Spell(ps)|;
      assert text[..c] == a + Spell(ps) + b[..n];
      LoopIsCaught(a, ps, s, b[..n]);
      assert false;
    }
  }
}
