/**
 * The evaluation-mode classifier of pkg/speech/types.go: language detection,
 * word counting, the rule table and the first-match scan of DetectEvalMode.
 *
 * Go iterates over the `modeRules` map in an unspecified order, so the order
 * in which DetectEvalMode meets the rules is a parameter here (any
 * arrangement of the table's keys), and every property below holds for
 * every such order.
 */
module EvalMode {
  import opened GoStrings

  type ModeType = int

  // English modes
  const EngWord: ModeType := 0
  const EngSentence: ModeType := 1
  const EngParagraph: ModeType := 2
  const EngFreeTalk: ModeType := 3
  const EngWordCorrect: ModeType := 4
  const EngScenario: ModeType := 5
  const EngMultiBranch: ModeType := 6
  const EngRealTimeWord: ModeType := 7

  // Chinese modes
  const ChnWord: ModeType := 11
  const ChnSentence: ModeType := 22
  const ChnParagraph: ModeType := 33
  const ChnFreeTalk: ModeType := 44
  const ChnScenario: ModeType := 55
  const ChnMultiBranch: ModeType := 66
  const ChnRealTimeWord: ModeType := 77
  const ChnPinyin: ModeType := 88

  /** One entry of the rule table; a word bound of 0 means "no bound". */
  datatype Rule = Rule(
    language: string,
    minWords: int,
    maxWords: int,
    hasSpace: bool,
    hasBranch: bool,
    hasPhonetic: bool,
    isPinyin: bool,
    isRealTime: bool)

  /** `modeRules`: only the four English rules are present. */
  const ModeRules: map<ModeType, Rule> := map[
    EngWord := Rule("en", 1, 1, false, false, true, false, false),
    EngSentence := Rule("en", 2, 30, true, false, false, false, false),
    EngParagraph := Rule("en", 31, 120, true, false, false, false, false),
    EngFreeTalk := Rule("en", 0, 0, false, false, false, false, false)
  ]

  /** The characters DetectEvalMode treats as branch delimiters. */
  const BranchDelimiters: string := "/\\|"

  // ---------------------------------------------------------------------
  // detectLanguage

  /** A rune that decides the language: a Han character or a lower-case letter. */
  predicate Decisive(c: char)
  {
    IsHan(c) || IsLower(c)
  }

  /** The language detectLanguage reports: that of the first decisive rune, or "". */
  function LanguageOf(s: string): string
  {
    if s == [] then ""
    else if IsHan(s[0]) then "zh"
    else if IsLower(s[0]) then "en"
    else LanguageOf(s[1..])
  }

  /** The first decisive rune decides: "zh" for a Han character, "en" for a lower-case letter. */
  lemma {:induction false} LanguageOfFirstDecisive(s: string, i: nat)
    requires i < |s| && Decisive(s[i])
    requires forall k :: 0 <= k < i ==> !Decisive(s[k])
    ensures LanguageOf(s) == if IsHan(s[i]) then "zh" else "en"
  {
    if i > 0 {
      LanguageOfFirstDecisive(s[1..], i - 1);
    }
  }

  /** Without a decisive rune the language is "" (so all-uppercase text has no language). */
  lemma {:induction false} LanguageOfNoDecisive(s: string)
    requires forall k :: 0 <= k < |s| ==> !Decisive(s[k])
    ensures LanguageOf(s) == ""
  {
    if s != [] {
      LanguageOfNoDecisive(s[1..]);
    }
  }

  /** The language is always one of "zh", "en" and "". */
  lemma {:induction false} LanguageOfRange(s: string)
    ensures LanguageOf(s) in {"zh", "en", ""}
  {
    if s != [] && !Decisive(s[0]) {
      LanguageOfRange(s[1..]);
    }
  }

  /** detectLanguage: a left-to-right scan that stops at the first decisive rune. */
  method DetectLanguage(input: string) returns (lang: string)
    ensures lang == LanguageOf(input)
  {
    var i := 0;
    while i < |input|
      invariant 0 <= i <= |input|
      invariant LanguageOf(input) == LanguageOf(input[i..])
    {
      var r := input[i];
      if IsHan(r) {
        return "zh";
      }
      if IsLower(r) {
        return "en";
      }
      assert input[i..][1..] == input[i + 1..];
      i := i + 1;
    }
    return "";
  }

  // ---------------------------------------------------------------------
  // countWords and checkWordCount

  /** countWords: fields for English, runes for Chinese, 0 for anything else. */
  function CountWords(input: string, language: string): (n: nat)
    ensures n <= |input|
    ensures language == "en" ==> n == FieldCount(input)
    ensures language == "zh" ==> n == |input|
    ensures language != "en" && language != "zh" ==> n == 0
  {
    if language == "en" then FieldCount(input)
    else if language == "zh" then |input|
    else 0
  }

  /** checkWordCount: `count` lies within the bounds, a bound of 0 (or less) being absent. */
  function CheckWordCount(count: int, min: int, max: int): (ok: bool)
    ensures !ok <==> (min > 0 && count < min) || (max > 0 && count > max)
    ensures min > 0 && max > 0 ==> (ok <==> min <= count <= max)
    ensures min <= 0 && max <= 0 ==> ok
  {
    if min > 0 && count < min then false
    else if max > 0 && count > max then false
    else true
  }

  // ---------------------------------------------------------------------
  // DetectEvalMode

  /** The orders in which Go may iterate over `modeRules`: each key exactly once. */
  predicate ValidOrder(order: seq<ModeType>)
  {
    && (forall m :: m in order ==> m in ModeRules)
    && (forall m :: m in ModeRules ==> m in order)
    && (forall i, j :: 0 <= i < j < |order| ==> order[i] != order[j])
  }

  /** `possibleModes`: the modes of `order` whose rule is for `language`, in order. */
  function Candidates(order: seq<ModeType>, language: string): (r: seq<ModeType>)
    requires forall m :: m in order ==> m in ModeRules
    ensures forall m :: m in r ==> m in order && ModeRules[m].language == language
  {
    if order == [] then []
    else
      var last := order[|order| - 1];
      Candidates(order[..|order| - 1], language)
      + (if ModeRules[last].language == language then [last] else [])
  }

  /** `len(strings.Split(clean, "/"))`. */
  function BranchCount(clean: string): nat
  {
    CountOf(clean, '/') + 1
  }

  /** Whether the scan in DetectEvalMode returns `mode` when it reaches that mode's rule. */
  predicate Verdict(mode: ModeType, rule: Rule, clean: string, wordCount: int, hasBranch: bool)
  {
    && CheckWordCount(wordCount, rule.minWords, rule.maxWords)
    && !(rule.hasSpace && ' ' !in clean)
    && !(rule.hasSpace && rule.isRealTime)
    && !(rule.hasBranch && !hasBranch)
    && (if rule.isRealTime then BranchCount(clean) >= 2 && wordCount == BranchCount(clean)
        else if mode == EngFreeTalk || mode == ChnFreeTalk then !hasBranch
        else true)
  }

  /** The first candidate whose verdict holds, or 0 when there is none. */
  function FirstVerdict(cands: seq<ModeType>, clean: string, wordCount: int, hasBranch: bool): (r: ModeType)
    requires forall m :: m in cands ==> m in ModeRules
    ensures r == 0 || (r in cands && Verdict(r, ModeRules[r], clean, wordCount, hasBranch))
    ensures (forall m :: m in cands ==> !Verdict(m, ModeRules[m], clean, wordCount, hasBranch)) ==> r == 0
  {
    if cands == [] then 0
    else if Verdict(cands[0], ModeRules[cands[0]], clean, wordCount, hasBranch) then cands[0]
    else
      var r := FirstVerdict(cands[1..], clean, wordCount, hasBranch);
      assert r != 0 ==> r in cands[1..];
      r
  }

  /** The scan returns the first candidate whose verdict holds. */
  lemma {:induction false} FirstVerdictFirst(cands: seq<ModeType>, clean: string, wc: int, hb: bool, i: int)
    requires forall m :: m in cands ==> m in ModeRules
    requires 0 <= i < |cands| && Verdict(cands[i], ModeRules[cands[i]], clean, wc, hb)
    requires forall k :: 0 <= k < i ==> !Verdict(cands[k], ModeRules[cands[k]], clean, wc, hb)
    ensures FirstVerdict(cands, clean, wc, hb) == cands[i]
  {
    if i > 0 {
      assert !Verdict(cands[0], ModeRules[cands[0]], clean, wc, hb);
      assert cands[1..][i - 1] == cands[i];
      forall k | 0 <= k < i - 1
        ensures !Verdict(cands[1..][k], ModeRules[cands[1..][k]], clean, wc, hb)
      {
        assert cands[1..][k] == cands[k + 1];
      }
      FirstVerdictFirst(cands[1..], clean, wc, hb, i - 1);
    }
  }

  /** The inputs of the scan: language of the raw text, everything else of the trimmed text. */
  function Clean(input: string): string
  {
    TrimSpace(input)
  }

  function WordCountOf(input: string): nat
  {
    CountWords(Clean(input), LanguageOf(input))
  }

  predicate HasBranch(input: string)
  {
    ContainsAny(Clean(input), BranchDelimiters)
  }

  /** The mode DetectEvalMode returns for `input` when Go iterates `modeRules` in `order`. */
  function Detect(input: string, order: seq<ModeType>): ModeType
    requires ValidOrder(order)
  {
    FirstVerdict(Candidates(order, LanguageOf(input)), Clean(input), WordCountOf(input), HasBranch(input))
  }

  /** Whether the rule of `mode` accepts `input`. */
  predicate Matches(input: string, mode: ModeType)
    requires mode in ModeRules
  {
    && ModeRules[mode].language == LanguageOf(input)
    && Verdict(mode, ModeRules[mode], Clean(input), WordCountOf(input), HasBranch(input))
  }

  /** One pass of DetectEvalMode's scan: every `continue` rejects the rule, every `return` accepts it. */
  method RuleAccepts(mode: ModeType, rule: Rule, cleanInput: string, wordCount: int, hasBranch: bool)
    returns (accept: bool)
    ensures accept == Verdict(mode, rule, cleanInput, wordCount, hasBranch)
  {
    if !CheckWordCount(wordCount, rule.minWords, rule.maxWords) {
      return false;
    }
    if rule.hasSpace && ' ' !in cleanInput {
      return false;
    }
    if rule.hasSpace && rule.isRealTime {
      return false;
    }
    if rule.hasBranch && !hasBranch {
      return false;
    }
    if rule.isRealTime {
      var branchCount := CountOf(cleanInput, '/') + 1;
      return branchCount >= 2 && wordCount == branchCount;
    }
    if mode == EngFreeTalk || mode == ChnFreeTalk {
      return !hasBranch;
    }
    return true;
  }

  /** DetectEvalMode: filter the rules by language, then return the first that matches. */
  method DetectEvalMode(input: string, order: seq<ModeType>) returns (mode: ModeType)
    requires ValidOrder(order)
    ensures mode == Detect(input, order)
  {
    var language := DetectLanguage(input);
    var cleanInput := TrimSpace(input);
    var hasBranch := ContainsAny(cleanInput, BranchDelimiters);
    var wordCount := CountWords(cleanInput, language);

    var possibleModes: seq<ModeType> := [];
    for i := 0 to |order|
      invariant possibleModes == Candidates(order[..i], language)
    {
      assert order[..i + 1][..i] == order[..i];
      var rule := ModeRules[order[i]];
      if rule.language != language {
        continue;
      }
      possibleModes := possibleModes + [order[i]];
    }
    assert order[..|order|] == order;

    ghost var target := FirstVerdict(possibleModes, cleanInput, wordCount, hasBranch);
    for j := 0 to |possibleModes|
      invariant target == FirstVerdict(possibleModes[j..], cleanInput, wordCount, hasBranch)
    {
      assert possibleModes[j..][1..] == possibleModes[j + 1..];
      mode := possibleModes[j];
      var accept := RuleAccepts(mode, ModeRules[mode], cleanInput, wordCount, hasBranch);
      if accept {
        return mode;
      }
    }
    return 0;
  }

  // ---------------------------------------------------------------------
  // Properties of the classifier, for every iteration order

  /** Every candidate list is drawn from the four English rules. */
  lemma {:induction false} CandidatesEnglish(order: seq<ModeType>, language: string)
    requires forall m :: m in order ==> m in ModeRules
    ensures language != "en" ==> Candidates(order, language) == []
    ensures forall m :: m in Candidates(order, language) ==> m in {EngWord, EngSentence, EngParagraph, EngFreeTalk}
  {
    if order != [] {
      CandidatesEnglish(order[..|order| - 1], language);
    }
  }

  /** A mode of the right language that is in the order is a candidate. */
  lemma {:induction false} CandidatesComplete(order: seq<ModeType>, language: string, m: ModeType)
    requires forall x :: x in order ==> x in ModeRules
    requires m in order && ModeRules[m].language == language
    ensures m in Candidates(order, language)
  {
    if order[|order| - 1] != m {
      assert m in order[..|order| - 1] by {
        var k :| 0 <= k < |order| && order[k] == m;
        assert order[..|order| - 1][k] == m;
      }
      CandidatesComplete(order[..|order| - 1], language, m);
    }
  }

  /** DetectEvalMode only ever returns 0, 1, 2 or 3, and 0 for any text that is not English. */
  lemma DetectRange(input: string, order: seq<ModeType>)
    requires ValidOrder(order)
    ensures Detect(input, order) in {EngWord, EngSentence, EngParagraph, EngFreeTalk}
    ensures LanguageOf(input) != "en" ==> Detect(input, order) == 0
  {
    CandidatesEnglish(order, LanguageOf(input));
  }

  /** A non-zero result is a mode whose rule accepts the input. */
  lemma DetectSound(input: string, order: seq<ModeType>)
    requires ValidOrder(order)
    ensures Detect(input, order) != 0 ==> Matches(input, Detect(input, order))
  {
  }

  /** A result of 0 means no rule accepts the input, or the word rule (also 0) does. */
  lemma DetectZero(input: string, order: seq<ModeType>)
    requires ValidOrder(order)
    ensures Detect(input, order) == 0 ==>
      forall m :: m in ModeRules && m != EngWord && Matches(input, m) ==>
        Matches(input, EngWord) && exists i, j :: 0 <= i < j < |order| && order[i] == EngWord && order[j] == m
  {
    if Detect(input, order) == 0 {
      forall m | m in ModeRules && m != EngWord && Matches(input, m)
        ensures Matches(input, EngWord)
        ensures exists i, j :: 0 <= i < j < |order| && order[i] == EngWord && order[j] == m
      {
        CandidatesComplete(order, LanguageOf(input), m);
        var cands := Candidates(order, LanguageOf(input));
        FirstVerdictBefore(cands, Clean(input), WordCountOf(input), HasBranch(input), m);
        CandidatesOrder(order, LanguageOf(input), EngWord, m);
      }
    }
  }

  /** If the scan returns 0 although `m` matches, the word rule matched earlier. */
  lemma {:induction false} FirstVerdictBefore(cands: seq<ModeType>, clean: string, wc: int, hb: bool, m: ModeType)
    requires forall x :: x in cands ==> x in ModeRules
    requires m in cands && m != 0 && Verdict(m, ModeRules[m], clean, wc, hb)
    requires FirstVerdict(cands, clean, wc, hb) == 0
    ensures exists i, j :: 0 <= i < j < |cands| && cands[i] == 0 && cands[j] == m
    ensures 0 in ModeRules && Verdict(0, ModeRules[0], clean, wc, hb)
  {
    if cands[0] == m {
      assert false;
    } else if Verdict(cands[0], ModeRules[cands[0]], clean, wc, hb) {
      assert cands[0] == 0;
      var j :| 0 <= j < |cands| && cands[j] == m;
      assert 0 < j;
    } else {
      FirstVerdictBefore(cands[1..], clean, wc, hb, m);
      var i, j :| 0 <= i < j < |cands[1..]| && cands[1..][i] == 0 && cands[1..][j] == m;
      assert cands[i + 1] == 0 && cands[j + 1] == m;
    }
  }

  /** Candidates keep the relative order of `order`. */
  lemma {:induction false} CandidatesOrder(order: seq<ModeType>, language: string, a: ModeType, b: ModeType)
    requires forall x :: x in order ==> x in ModeRules
    requires exists i, j ::
               0 <= i < j < |Candidates(order, language)|
               && Candidates(order, language)[i] == a && Candidates(order, language)[j] == b
    ensures exists i, j :: 0 <= i < j < |order| && order[i] == a && order[j] == b
  {
    var cands := Candidates(order, language);
    var i, j :| 0 <= i < j < |cands| && cands[i] == a && cands[j] == b;
    var last := order[|order| - 1];
    var init := order[..|order| - 1];
    var front := Candidates(init, language);
    assert cands == front + (if ModeRules[last].language == language then [last] else []);
    if j < |front| {
      assert front[i] == a && front[j] == b;
      CandidatesOrder(init, language, a, b);
      var i', j' :| 0 <= i' < j' < |init| && init[i'] == a && init[j'] == b;
      assert order[i'] == a && order[j'] == b;
    } else {
      assert b == last;
      assert a in front;
      assert a in init;
      var i' :| 0 <= i' < |init| && init[i'] == a;
      assert order[i'] == a && order[|order| - 1] == b;
    }
  }

  /** EngSentence (1) implies a space in the trimmed text and 2..30 words. */
  lemma DetectSentence(input: string, order: seq<ModeType>)
    requires ValidOrder(order)
    requires Detect(input, order) == EngSentence
    ensures ' ' in Clean(input) && 2 <= FieldCount(Clean(input)) <= 30
  {
    DetectRange(input, order);
  }

  /** EngParagraph (2) implies a space in the trimmed text and 31..120 words. */
  lemma DetectParagraph(input: string, order: seq<ModeType>)
    requires ValidOrder(order)
    requires Detect(input, order) == EngParagraph
    ensures ' ' in Clean(input) && 31 <= FieldCount(Clean(input)) <= 120
  {
    DetectRange(input, order);
  }

  /** EngFreeTalk (3) implies the trimmed text holds none of '/', '\\' and '|'. */
  lemma DetectFreeTalk(input: string, order: seq<ModeType>)
    requires ValidOrder(order)
    requires Detect(input, order) == EngFreeTalk
    ensures forall c :: c in Clean(input) ==> c != '/' && c != '\\' && c != '|'
  {
    forall c | c in Clean(input)
      ensures c != '/' && c != '\\' && c != '|'
    {
      var k :| 0 <= k < |Clean(input)| && Clean(input)[k] == c;
      assert Clean(input)[k] !in BranchDelimiters;
    }
  }

  /**
   * The first mode of the iteration order whose rule accepts the input is the
   * result: modes before it that are rejected, or are for another language,
   * do not stop the scan.
   */
  lemma {:induction false} DetectFirst(input: string, order: seq<ModeType>, i: int)
    requires ValidOrder(order) && 0 <= i < |order|
    requires Matches(input, order[i])
    requires forall k :: 0 <= k < i ==> !Matches(input, order[k])
    ensures Detect(input, order) == order[i]
  {
    var language := LanguageOf(input);
    var clean, wc, hb := Clean(input), WordCountOf(input), HasBranch(input);
    assert order == order[..i] + order[i..];
    CandidatesAppend(order[..i], order[i..], language);
    var front := Candidates(order[..i], language);
    var back := Candidates(order[i..], language);
    assert order[i..][0] == order[i];
    CandidatesHead(order[i..], language);
    var cands := front + back;
    assert cands[|front|] == order[i];
    forall j | 0 <= j < |front|
      ensures !Verdict(cands[j], ModeRules[cands[j]], clean, wc, hb)
    {
      assert cands[j] == front[j] && front[j] in front;
      var k :| 0 <= k < i && order[..i][k] == front[j];
      assert !Matches(input, order[k]);
    }
    FirstVerdictFirst(cands, clean, wc, hb, |front|);
  }

  /** Candidates distribute over a split of the iteration order. */
  lemma {:induction false} CandidatesAppend(a: seq<ModeType>, b: seq<ModeType>, language: string)
    requires forall m :: m in a ==> m in ModeRules
    requires forall m :: m in b ==> m in ModeRules
    ensures Candidates(a + b, language) == Candidates(a, language) + Candidates(b, language)
    decreases |b|
  {
    if b == [] {
      assert a + b == a;
    } else {
      var last := b[|b| - 1];
      assert (a + b)[..|a + b| - 1] == a + b[..|b| - 1];
      assert (a + b)[|a + b| - 1] == last;
      CandidatesAppend(a, b[..|b| - 1], language);
    }
  }

  lemma {:induction false} CandidatesHead(order: seq<ModeType>, language: string)
    requires forall m :: m in order ==> m in ModeRules
    requires order != [] && order[0] in ModeRules && ModeRules[order[0]].language == language
    ensures Candidates(order, language) != [] && Candidates(order, language)[0] == order[0]
  {
    if |order| > 1 {
      assert order[..|order| - 1][0] == order[0];
      CandidatesHead(order[..|order| - 1], language);
    }
  }

  /**
   * A single word of lower-case letters (such as "cat") is one English word
   * without branch delimiters, so both EngWord and EngFreeTalk accept it.
   */
  lemma {:induction false} LowercaseWordMatches(s: string)
    requires s != [] && forall k :: 0 <= k < |s| ==> IsLower(s[k])
    ensures Matches(s, EngWord) && Matches(s, EngFreeTalk)
  {
    assert IsLower(s[0]) && !IsHan(s[0]);
    assert LanguageOf(s) == "en";
    assert !IsSpace(s[0]) && !IsSpace(s[|s| - 1]);
    assert TrimLeft(s) == s;
    assert TrimRight(s) == s;
    assert Clean(s) == s;
    FieldCountOneWord(s);
    assert WordCountOf(s) == 1;
    assert !HasBranch(s) by {
      forall i | 0 <= i < |s|
        ensures s[i] !in BranchDelimiters
      {
        assert IsLower(s[i]);
      }
    }
  }

  /** The rule table's keys are exactly the four English modes. */
  lemma RuleKeys()
    ensures ModeRules.Keys == {EngWord, EngSentence, EngParagraph, EngFreeTalk}
  {
  }

  /** Two of Go's possible iteration orders over `modeRules`. */
  const WordFirst: seq<ModeType> := [EngWord, EngSentence, EngParagraph, EngFreeTalk]
  const FreeTalkFirst: seq<ModeType> := [EngFreeTalk, EngWord, EngSentence, EngParagraph]

  lemma OrdersValid()
    ensures ValidOrder(WordFirst) && ValidOrder(FreeTalkFirst)
  {
    RuleKeys();
  }

  /**
   * An input that both EngWord and EngFreeTalk accept (one English word, such
   * as "cat", see LowercaseWordMatches) gets 0 or 3 depending on the iteration order.
   */
  lemma OrderDecides(input: string)
    requires Matches(input, EngWord) && Matches(input, EngFreeTalk)
    ensures (OrdersValid(); Detect(input, WordFirst) == EngWord)
    ensures (OrdersValid(); Detect(input, FreeTalkFirst) == EngFreeTalk)
  {
    OrdersValid();
    DetectFirst(input, WordFirst, 0);
    DetectFirst(input, FreeTalkFirst, 0);
  }

  /** All-uppercase text has no language, so DetectEvalMode returns 0 for it. */
  lemma UppercaseHasNoLanguage(order: seq<ModeType>)
    requires ValidOrder(order)
    ensures LanguageOf("CAT") == "" && Detect("CAT", order) == 0
  {
    LanguageOfNoDecisive("CAT");
    DetectRange("CAT", order);
  }
}
