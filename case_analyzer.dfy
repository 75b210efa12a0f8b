/**
 * The case analyser: keyword heuristics that estimate a case's urgency, hearing
 * duration and complexity from its type and description, the normalisation of
 * a language model's JSON reply, and the guard that sends a blank description
 * straight to the heuristics.
 *
 * Every urgency constant has at most two decimals, so urgencies are integer
 * hundredths (0.75 is 75); the final `round(x, 2)` of the heuristic result is
 * then the identity.  Durations are minutes.
 */
module CaseAnalyzer {
  import opened Wrappers
  import opened Text
  import Seqs

  datatype Complexity = Low | Medium | High

  function ComplexityName(c: Complexity): string {
    match c
    case Low => "low"
    case Medium => "medium"
    case High => "high"
  }

  /** The heuristic result: urgency in hundredths, duration in minutes. */
  datatype Analysis = Analysis(urgency: int, estimatedDuration: int, complexity: string, reasoning: string)

  /** A row of the special-case table: term, urgency modifier, duration change, complexity. */
  datatype Special = Special(term: string, urgency: int, duration: int, complexity: Complexity)

  const CriticalKeywords: seq<(string, int)> := [
    ("emergency", 35), ("immediate", 30), ("urgent", 25),
    ("bail", 30), ("habeas corpus", 35), ("life threat", 35),
    ("domestic violence", 30), ("child abuse", 35), ("danger", 25),
    ("custody", 20), ("injunction", 20), ("restraining", 20)]

  const ComplexIndicators: seq<string> := [
    "multiple parties", "witnesses", "expert testimony", "forensic",
    "extensive evidence", "complex", "cross-examination", "appeal",
    "precedent", "constitutional", "interpretation"]

  const SimpleIndicators: seq<string> := [
    "simple", "straightforward", "uncontested", "agreed",
    "minor", "routine", "procedural"]

  const TimeKeywords: seq<(string, int)> := [
    ("brief", -15), ("quick", -10), ("lengthy", 30),
    ("detailed", 20), ("extensive", 30), ("summary", -20)]

  /** Checked in this order; only the first term found applies. */
  const SpecialCases: seq<Special> := [
    Special("murder", 30, 60, High),
    Special("rape", 35, 60, High),
    Special("kidnapping", 35, 45, High),
    Special("fraud", 10, 30, Medium),
    Special("divorce", 0, -15, Medium),
    Special("property dispute", -10, 15, Medium),
    Special("traffic", -20, -20, Low)]

  function BaseUrgency(caseType: string): int {
    if caseType == "criminal" then 75
    else if caseType == "family" then 65
    else if caseType == "civil" then 45
    else if caseType == "other" then 35
    else 50
  }

  function BaseDuration(caseType: string): int {
    if caseType == "criminal" then 90
    else if caseType == "family" then 75
    else if caseType == "civil" then 60
    else if caseType == "other" then 45
    else 60
  }

  function Max(a: int, b: int): int {
    if a >= b then a else b
  }

  function Min(a: int, b: int): int {
    if a <= b then a else b
  }

  /** `max(lo, min(hi, x))`. */
  function Clamp(x: int, lo: int, hi: int): (r: int)
    requires lo <= hi
    ensures lo <= r <= hi
    ensures lo <= x <= hi ==> r == x
    ensures x < lo ==> r == lo
    ensures x > hi ==> r == hi
  {
    Max(lo, Min(hi, x))
  }

  // ---------------------------------------------------------------------------
  // The heuristics as functions of the lower-cased description

  /** The urgency modifier after the first n critical keywords: the running maximum, from 0. */
  function Boost(text: string, n: nat): (r: int)
    requires n <= |CriticalKeywords|
    ensures r >= 0
  {
    if n == 0 then 0
    else
      var prev := Boost(text, n - 1);
      if Contains(text, CriticalKeywords[n - 1].0) then Max(prev, CriticalKeywords[n - 1].1) else prev
  }

  /** How many of the indicators occur in the text. */
  function CountIn(indicators: seq<string>, text: string): (r: nat)
    ensures r <= |indicators|
  {
    if indicators == [] then 0
    else CountIn(indicators[..|indicators| - 1], text) + (if Contains(text, indicators[|indicators| - 1]) then 1 else 0)
  }

  /** The complexity and duration change chosen by the indicator counts. */
  function IndicatorStep(complexCount: nat, simpleCount: nat): (Complexity, int) {
    if complexCount >= 2 then (High, 45)
    else if complexCount == 1 then (Medium, 20)
    else if simpleCount >= 1 then (Low, -15)
    else (Medium, 0)
  }

  /** Length of the run of ASCII digits at the start of s. */
  function DigitRun(s: string): nat {
    LeadCount(s, IsDigit)
  }

  /**
   * A match of `(\d+)\s+witness` starting at p: a maximal digit run, at least
   * one whitespace character, then "witness".  The value is the run's number.
   */
  function WitnessAt(s: string, p: nat): Option<nat>
    requires p <= |s|
  {
    var q := p + DigitRun(s[p..]);
    var w := LeadCount(s[q..], PySpace);
    if q > p && w > 0 && StartsWith(s[q + w..], "witness") then Some(DigitsValue(s[p..q])) else None
  }

  /** `re.search(r'(\d+)\s+witness', s)`: the leftmost match at or after p. */
  function WitnessFrom(s: string, p: nat): Option<nat>
    requires p <= |s|
    decreases |s| - p
  {
    if p == |s| then None
    else if WitnessAt(s, p).Some? then WitnessAt(s, p)
    else WitnessFrom(s, p + 1)
  }

  /** Minutes added for witnesses: ten per witness, at most sixty. */
  function WitnessMinutes(text: string): (r: int)
    ensures 0 <= r <= 60
  {
    if Contains(text, "witness") then
      match WitnessFrom(text, 0)
      case Some(n) => Min(n * 10, 60)
      case None => 0
    else 0
  }

  /** The sum of the duration changes of the first n time keywords found. */
  function TimeShift(text: string, n: nat): int
    requires n <= |TimeKeywords|
  {
    if n == 0 then 0
    else TimeShift(text, n - 1) + (if Contains(text, TimeKeywords[n - 1].0) then TimeKeywords[n - 1].1 else 0)
  }

  /** The first special case at index k or later whose term occurs in the text. */
  function SpecialFrom(text: string, k: nat): Option<Special>
    requires k <= |SpecialCases|
    decreases |SpecialCases| - k
  {
    if k == |SpecialCases| then None
    else if Contains(text, SpecialCases[k].term) then Some(SpecialCases[k])
    else SpecialFrom(text, k + 1)
  }

  /** The first special case whose term occurs in the text. */
  function FirstSpecial(text: string): Option<Special> {
    SpecialFrom(text, 0)
  }

  /** The running modifiers of the analysis. */
  datatype Modifiers = Modifiers(urgency: int, duration: int, complexity: Complexity)

  /** The modifiers before the special-case table is consulted. */
  function PreSpecial(text: string): Modifiers {
    var step := IndicatorStep(CountIn(ComplexIndicators, text), CountIn(SimpleIndicators, text));
    Modifiers(Boost(text, |CriticalKeywords|), step.1 + WitnessMinutes(text) + TimeShift(text, |TimeKeywords|), step.0)
  }

  function ApplySpecial(m: Modifiers, sc: Option<Special>): Modifiers {
    match sc
    case None => m
    case Some(s) => Modifiers(Max(m.urgency, s.urgency), m.duration + s.duration, s.complexity)
  }

  /** All modifiers of a described case. */
  function DescribedModifiers(text: string): Modifiers {
    ApplySpecial(PreSpecial(text), FirstSpecial(text))
  }

  /** `{x:.2f}` for a non-negative number of hundredths. */
  function FormatHundredths(m: nat): string {
    IntToString(m / 100) + "." + [DigitChar(m % 100 / 10), DigitChar(m % 10)]
  }

  /** The urgency note of the reasoning text, present when the modifier is positive. */
  function UrgencyNote(reasoning: string, urgencyModifier: int): string {
    if urgencyModifier > 0 then reasoning + " with high-priority indicators (urgency +" + FormatHundredths(urgencyModifier) + ")"
    else reasoning
  }

  /** The complexity note of the reasoning text, present unless the complexity is medium. */
  function ComplexityNote(reasoning: string, c: Complexity): string {
    if c != Medium then reasoning + ", " + ComplexityName(c) + " complexity" else reasoning
  }

  /** The reasoning text, extended as the analyser extends it. */
  function Reasoning(caseType: string, urgencyModifier: int, c: Complexity): string {
    ComplexityNote(UrgencyNote("Enhanced rule-based analysis: " + caseType + " case", urgencyModifier), c)
  }

  /** Python truthiness of an optional string. */
  predicate Given(description: Option<string>) {
    description.Some? && description.value != ""
  }

  function ModifiersFor(description: Option<string>): Modifiers {
    if Given(description) then DescribedModifiers(Lower(description.value)) else Modifiers(0, 0, Medium)
  }

  /** The final values: clamped urgency and duration, complexity name, reasoning. */
  function Finalize(caseType: string, m: Modifiers): (r: Analysis)
    ensures 0 <= r.urgency <= 100
    ensures 30 <= r.estimatedDuration <= 240
    ensures r.complexity in {"low", "medium", "high"}
  {
    Analysis(Clamp(BaseUrgency(caseType) + m.urgency, 0, 100),
             Clamp(BaseDuration(caseType) + m.duration, 30, 240),
             ComplexityName(m.complexity),
             Reasoning(caseType, m.urgency, m.complexity))
  }

  /** `analyze_case_rule_based(case_type, description)`. */
  function RuleBased(caseType: string, description: Option<string>): Analysis {
    Finalize(caseType, ModifiersFor(description))
  }

  /** The critical-keyword pass: the largest boost among the keywords found, from 0. */
  method CriticalPass(text: string) returns (urgencyModifier: int)
    ensures urgencyModifier == Boost(text, |CriticalKeywords|)
  {
    urgencyModifier := 0;
    var k := 0;
    while k < |CriticalKeywords|
      invariant 0 <= k <= |CriticalKeywords|
      invariant urgencyModifier == Boost(text, k)
    {
      if Contains(text, CriticalKeywords[k].0) {
        urgencyModifier := Max(urgencyModifier, CriticalKeywords[k].1);
      }
      k := k + 1;
    }
  }

  /** The duration-keyword pass: adds the change of every keyword found. */
  method TimePass(text: string, durationModifier: int) returns (d: int)
    ensures d == durationModifier + TimeShift(text, |TimeKeywords|)
  {
    d := durationModifier;
    var k := 0;
    while k < |TimeKeywords|
      invariant 0 <= k <= |TimeKeywords|
      invariant d == durationModifier + TimeShift(text, k)
    {
      if Contains(text, TimeKeywords[k].0) {
        d := d + TimeKeywords[k].1;
      }
      k := k + 1;
    }
  }

  /** The special-case pass: the first term found applies, and the pass stops there. */
  method SpecialPass(text: string, pre: Modifiers) returns (m: Modifiers)
    ensures m == ApplySpecial(pre, FirstSpecial(text))
  {
    var urgencyModifier, durationModifier, complexity := pre.urgency, pre.duration, pre.complexity;
    var k := 0;
    while k < |SpecialCases|
      invariant 0 <= k <= |SpecialCases|
      invariant SpecialFrom(text, k) == FirstSpecial(text)
      invariant Modifiers(urgencyModifier, durationModifier, complexity) == pre
    {
      var sc := SpecialCases[k];
      if Contains(text, sc.term) {
        urgencyModifier := Max(urgencyModifier, sc.urgency);
        durationModifier := durationModifier + sc.duration;
        complexity := sc.complexity;
        break;
      }
      k := k + 1;
    }
    m := Modifiers(urgencyModifier, durationModifier, complexity);
  }

  /** The keyword passes over a described case's lower-cased text, in the analyser's order. */
  method KeywordPasses(text: string) returns (m: Modifiers)
    ensures m == DescribedModifiers(text)
  {
    var complexity := Medium;
    var durationModifier := 0;
    var urgencyModifier := CriticalPass(text);
    var complexCount := CountIn(ComplexIndicators, text);
    var simpleCount := CountIn(SimpleIndicators, text);
    if complexCount >= 2 {
      complexity := High;
      durationModifier := durationModifier + 45;
    } else if complexCount == 1 {
      complexity := Medium;
      durationModifier := durationModifier + 20;
    } else if simpleCount >= 1 {
      complexity := Low;
      durationModifier := durationModifier - 15;
    }
    assert (complexity, durationModifier) == IndicatorStep(complexCount, simpleCount);
    ghost var stepped := durationModifier;
    if Contains(text, "witness") {
      var found := WitnessFrom(text, 0);
      if found.Some? {
        durationModifier := durationModifier + Min(found.value * 10, 60);
      }
    }
    assert durationModifier == stepped + WitnessMinutes(text);
    durationModifier := TimePass(text, durationModifier);
    assert Modifiers(urgencyModifier, durationModifier, complexity) == PreSpecial(text);
    m := SpecialPass(text, Modifiers(urgencyModifier, durationModifier, complexity));
  }

  /** `analyze_case_rule_based(case_type, description)`, as the analyser runs it. */
  method AnalyzeRuleBased(caseType: string, description: Option<string>) returns (r: Analysis)
    ensures r == RuleBased(caseType, description)
  {
    var baseUrgency := BaseUrgency(caseType);
    var baseDuration := BaseDuration(caseType);
    var m := Modifiers(0, 0, Medium);
    if Given(description) {
      m := KeywordPasses(Lower(description.value));
    }
    var finalUrgency := Clamp(baseUrgency + m.urgency, 0, 100);
    var finalDuration := Clamp(baseDuration + m.duration, 30, 240);
    var reasoning := "Enhanced rule-based analysis: " + caseType + " case";
    if m.urgency > 0 {
      reasoning := reasoning + " with high-priority indicators (urgency +" + FormatHundredths(m.urgency) + ")";
    }
    if m.complexity != Medium {
      reasoning := reasoning + ", " + ComplexityName(m.complexity) + " complexity";
    }
    r := Analysis(finalUrgency, finalDuration, ComplexityName(m.complexity), reasoning);
    assert r == Finalize(caseType, m);
  }

  // ---------------------------------------------------------------------------
  // Properties of the heuristics

  /** Without a description the result is the base values of the case type, at medium complexity. */
  lemma NoDescriptionGivesBase(caseType: string, description: Option<string>)
    requires !Given(description)
    ensures RuleBased(caseType, description)
            == Analysis(BaseUrgency(caseType), BaseDuration(caseType), "medium",
                        "Enhanced rule-based analysis: " + caseType + " case")
  {
  }

  /** Unknown case types get urgency 0.5 and sixty minutes as the base. */
  lemma UnknownTypeBase(caseType: string)
    requires caseType !in {"criminal", "family", "civil", "other"}
    ensures BaseUrgency(caseType) == 50 && BaseDuration(caseType) == 60
  {
  }

  /**
   * The urgency modifier is at least every matched keyword's boost, and it is
   * either 0 or the boost of some matched keyword.
   */
  lemma {:induction false} BoostIsMaxOfMatched(text: string, n: nat)
    requires n <= |CriticalKeywords|
    ensures forall j :: 0 <= j < n && Contains(text, CriticalKeywords[j].0) ==> CriticalKeywords[j].1 <= Boost(text, n)
    ensures Boost(text, n) == 0
            || exists j :: 0 <= j < n && Contains(text, CriticalKeywords[j].0) && CriticalKeywords[j].1 == Boost(text, n)
  {
    if n > 0 {
      BoostIsMaxOfMatched(text, n - 1);
    }
  }

  /**
   * The urgency never drops below the base of the case type, even when a
   * special case with a negative modifier applies.
   */
  lemma UrgencyNeverBelowBase(caseType: string, description: Option<string>)
    ensures RuleBased(caseType, description).urgency >= BaseUrgency(caseType)
  {
    var m := ModifiersFor(description);
    if Given(description) {
      var text := Lower(description.value);
      assert m.urgency >= PreSpecial(text).urgency >= 0;
    }
  }

  /** With no special term, the indicator counts decide complexity and duration step. */
  lemma ComplexityFollowsIndicators(text: string)
    requires FirstSpecial(text).None?
    ensures var cc, sc := CountIn(ComplexIndicators, text), CountIn(SimpleIndicators, text);
            && (DescribedModifiers(text).complexity == High <==> cc >= 2)
            && (DescribedModifiers(text).complexity == Low <==> cc == 0 && sc >= 1)
            && DescribedModifiers(text).duration
               == (if cc >= 2 then 45 else if cc == 1 then 20 else if sc >= 1 then -15 else 0)
                  + WitnessMinutes(text) + TimeShift(text, |TimeKeywords|)
  {
  }

  /**
   * Only the first special term found applies: it sets the complexity and adds
   * its duration change once, whatever later terms also occur.
   */
  lemma FirstSpecialWins(text: string, i: nat)
    requires i < |SpecialCases| && Contains(text, SpecialCases[i].term)
    requires forall j :: 0 <= j < i ==> !Contains(text, SpecialCases[j].term)
    ensures DescribedModifiers(text).complexity == SpecialCases[i].complexity
    ensures DescribedModifiers(text).duration == PreSpecial(text).duration + SpecialCases[i].duration
    ensures DescribedModifiers(text).urgency == Max(PreSpecial(text).urgency, SpecialCases[i].urgency)
  {
    SpecialFromAt(text, 0, i);
  }

  /** The search from k finds the first term at or after k that occurs. */
  lemma {:induction false} SpecialFromAt(text: string, k: nat, i: nat)
    requires k <= i < |SpecialCases| && Contains(text, SpecialCases[i].term)
    requires forall j :: k <= j < i ==> !Contains(text, SpecialCases[j].term)
    ensures SpecialFrom(text, k) == Some(SpecialCases[i])
    decreases i - k
  {
    if k < i {
      SpecialFromAt(text, k + 1, i);
    }
  }

  /** No special case applies exactly when none of the terms occurs. */
  lemma {:induction false} SpecialFromNone(text: string, k: nat)
    requires k <= |SpecialCases|
    ensures SpecialFrom(text, k).None? <==> forall j :: k <= j < |SpecialCases| ==> !Contains(text, SpecialCases[j].term)
    decreases |SpecialCases| - k
  {
    if k < |SpecialCases| {
      SpecialFromNone(text, k + 1);
    }
  }

  /** In digits + " " + tail, the digit run is the digits. */
  lemma DigitRunOfDigits(s: string, digits: string, tail: string)
    requires AllDigits(digits) && s == digits + ([' '] + tail)
    ensures DigitRun(s[0..]) == |digits|
  {
    assert s[0..] == s;
    LeadCountAppend(digits, [' '] + tail, IsDigit);
    assert !IsDigit(([' '] + tail)[0]);
  }

  /** In digits + " witness..." the space run after the digits has length one. */
  lemma SpaceRunBeforeWitness(s: string, digits: string, tail: string)
    requires s == digits + ([' '] + tail) && |tail| > 0 && tail[0] == 'w'
    ensures LeadCount(s[|digits|..], PySpace) == 1
  {
    assert s[|digits|..] == [' '] + tail;
    LeadCountAppend([' '], tail, PySpace);
    assert !PySpace(tail[0]);
  }

  /** The conditions of a match at p, spelt out. */
  lemma WitnessAtIntro(s: string, p: nat, q: nat, w: nat)
    requires p < q <= |s| && q == p + DigitRun(s[p..])
    requires 0 < w == LeadCount(s[q..], PySpace) && StartsWith(s[q + w..], "witness")
    ensures WitnessAt(s, p) == Some(DigitsValue(s[p..q]))
  {
  }

  /** Digits, a space and "witness" at the start of the text match there. */
  lemma WitnessAtDigits(digits: string, rest: string)
    requires |digits| >= 1 && AllDigits(digits)
    ensures WitnessAt(digits + " witness" + rest, 0) == Some(DigitsValue(digits))
  {
    var tail := "witness" + rest;
    var s := digits + ([' '] + tail);
    assert s == digits + " witness" + rest;
    DigitRunOfDigits(s, digits, tail);
    SpaceRunBeforeWitness(s, digits, tail);
    assert StartsWith(s[|digits| + 1..], "witness") by {
      assert s[|digits| + 1..] == tail;
      assert tail[..7] == "witness";
    }
    assert s[0..|digits|] == digits;
    WitnessAtIntro(s, 0, |digits|, 1);
  }

  /** "N witness..." at the start of the text is read as N. */
  lemma WitnessPhrase(n: nat, rest: string)
    ensures WitnessFrom(NatToString(n) + " witness" + rest, 0) == Some(n)
  {
    WitnessAtDigits(NatToString(n), rest);
    DigitsRoundTrip(n);
  }

  /** Hence the phrase adds min(10·N, 60) minutes. */
  lemma WitnessPhraseMinutes(n: nat, rest: string)
    ensures WitnessMinutes(NatToString(n) + " witness" + rest) == Min(n * 10, 60)
  {
    var s := NatToString(n) + " witness" + rest;
    WitnessPhrase(n, rest);
    WitnessWordIn(NatToString(n), rest, s);
    WitnessMinutesOf(s, n);
  }

  lemma WitnessWordIn(digits: string, rest: string, s: string)
    requires s == digits + " witness" + rest
    ensures Contains(s, "witness")
  {
    assert s == (digits + " ") + "witness" + rest;
    ContainsMiddle(digits + " ", "witness", rest);
  }

  lemma WitnessMinutesOf(s: string, n: nat)
    requires Contains(s, "witness") && WitnessFrom(s, 0) == Some(n)
    ensures WitnessMinutes(s) == Min(n * 10, 60)
  {
  }

  // ---------------------------------------------------------------------------
  // Normalising the model's JSON reply

  /** A value as `json.loads` returns it. */
  datatype Json =
    | JNull
    | JBool(b: bool)
    | JInt(i: int)
    | JFloat(x: real)
    | JString(s: string)
    | JArray(items: seq<Json>)
    | JObject(fields: map<string, Json>)

  /** `int(x)` of a float: truncation toward zero. */
  function Truncate(x: real): (t: int)
    ensures x >= 0.0 ==> t as real <= x < t as real + 1.0
    ensures x < 0.0 ==> t as real - 1.0 < x <= t as real
  {
    if x >= 0.0 then x.Floor else -((-x).Floor)
  }

  /** `float(v)`; `parseFloat` stands for Python's reading of a string. */
  function FloatOf(v: Json, parseFloat: string -> Option<real>): Option<real> {
    match v
    case JBool(b) => Some(if b then 1.0 else 0.0)
    case JInt(i) => Some(i as real)
    case JFloat(x) => Some(x)
    case JString(s) => parseFloat(s)
    case _ => None
  }

  /** `int(v)`; `parseInt` stands for Python's reading of a string. */
  function IntOf(v: Json, parseInt: string -> Option<int>): Option<int> {
    match v
    case JBool(b) => Some(if b then 1 else 0)
    case JInt(i) => Some(i)
    case JFloat(x) => Some(Truncate(x))
    case JString(s) => parseInt(s)
    case _ => None
  }

  function ClampReal(x: real, lo: real, hi: real): (r: real)
    requires lo <= hi
    ensures lo <= r <= hi
    ensures lo <= x <= hi ==> r == x
  {
    if x < lo then lo else if x > hi then hi else x
  }

  /** `data.get(key, default)`. */
  function Get(m: map<string, Json>, key: string, default: Json): Json {
    if key in m then m[key] else default
  }

  /** The lines strictly between the first and the last, rejoined. */
  function InnerLines(text: string): string {
    var lines := Split(text, '\n');
    if |lines| <= 2 then "" else Join(lines[1..|lines| - 1], '\n')
  }

  /** The reply with an accidental code fence removed. */
  function Unfenced(text: string): string {
    if StartsWith(text, "```") then Trim(RemoveAll(RemoveAll(InnerLines(text), "```json"), "```"), PySpace)
    else text
  }

  /** The reply from the first '{' to the last '}', when the first comes before the last. */
  function ObjectSlice(t: string): (r: string)
    ensures (exists i, j :: 0 <= i < j < |t| && t[i] == '{' && t[j] == '}') ==>
              exists a, b ::
                && 0 <= a < b <= |t| && r == t[a..b]
                && r[0] == '{' && r[|r| - 1] == '}'
                && '{' !in t[..a] && '}' !in t[b..]
    ensures !(exists i, j :: 0 <= i < j < |t| && t[i] == '{' && t[j] == '}') ==> r == t
  {
    if '{' in t && '}' in t && IndexOf(t, '{') < LastIndexOf(t, '}') then
      var a, b := IndexOf(t, '{'), LastIndexOf(t, '}') + 1;
      assert t[..a] == t[..IndexOf(t, '{')];
      t[a..b]
    else
      assert !(exists i, j :: 0 <= i < j < |t| && t[i] == '{' && t[j] == '}');
      t
  }

  /** What `json.loads` makes of the cleaned reply, when it is an object. */
  function ParsedObject(text: string, parse: string -> Option<Json>): Option<map<string, Json>> {
    match parse(ObjectSlice(Unfenced(text)))
    case Some(JObject(m)) => Some(m)
    case _ => None
  }

  /** The text handed to `json.loads`: fence removed, then the object slice kept. */
  method CleanReply(text: string) returns (t: string)
    ensures t == ObjectSlice(Unfenced(text))
  {
    t := text;
    if StartsWith(t, "```") {
      var lines := Split(t, '\n');
      t := if |lines| <= 2 then "" else Join(lines[1..|lines| - 1], '\n');
      assert t == InnerLines(text);
      t := RemoveAll(t, "```json");
      t := RemoveAll(t, "```");
      t := Trim(t, PySpace);
    }
    assert t == Unfenced(text);
    t := ObjectSlice(t);
  }

  /**
   * The object after normalisation, given the urgency u and the duration d
   * read from it: both are clamped, missing `complexity` and `reasoning` get
   * their defaults, and every other key is kept as it was.
   */
  function Normalized(m: map<string, Json>, caseType: string, u: real, d: int): (r: map<string, Json>)
    ensures r.Keys == m.Keys + {"urgency", "estimated_duration", "complexity", "reasoning"}
    ensures r["urgency"] == JFloat(ClampReal(u, 0.0, 1.0))
    ensures r["estimated_duration"] == JInt(Clamp(d, 30, 300))
    ensures r["complexity"] == Get(m, "complexity", JString("medium"))
    ensures r["reasoning"] == Get(m, "reasoning", JString("Model analysis for " + caseType + " case"))
    ensures forall k :: k in m && k !in {"urgency", "estimated_duration", "complexity", "reasoning"} ==> r[k] == m[k]
  {
    var m1 := m["urgency" := JFloat(ClampReal(u, 0.0, 1.0))]["estimated_duration" := JInt(Clamp(d, 30, 300))];
    var m2 := if "complexity" in m1 then m1 else m1["complexity" := JString("medium")];
    if "reasoning" in m2 then m2 else m2["reasoning" := JString("Model analysis for " + caseType + " case")]
  }

  /**
   * What `_normalize_json(text, case_type)` returns: the cleaned reply parsed
   * as an object whose urgency and duration convert, then normalised; `None`
   * stands for the exception raised otherwise.
   */
  function Normalize(text: string, caseType: string, parse: string -> Option<Json>,
                     parseFloat: string -> Option<real>, parseInt: string -> Option<int>): (r: Option<map<string, Json>>)
    ensures r.Some? <==>
              && ParsedObject(text, parse).Some?
              && FloatOf(Get(ParsedObject(text, parse).value, "urgency", JFloat(0.5)), parseFloat).Some?
              && IntOf(Get(ParsedObject(text, parse).value, "estimated_duration", JInt(60)), parseInt).Some?
    ensures r.Some? ==>
              var m := ParsedObject(text, parse).value;
              r.value == Normalized(m, caseType, FloatOf(Get(m, "urgency", JFloat(0.5)), parseFloat).value,
                                    IntOf(Get(m, "estimated_duration", JInt(60)), parseInt).value)
  {
    match ParsedObject(text, parse)
    case None => None
    case Some(m) =>
      var u := FloatOf(Get(m, "urgency", JFloat(0.5)), parseFloat);
      var d := IntOf(Get(m, "estimated_duration", JInt(60)), parseInt);
      if u.Some? && d.Some? then Some(Normalized(m, caseType, u.value, d.value)) else None
  }

  /**
   * `_normalize_json(text, case_type)`; `None` stands for an exception (the
   * caller falls back to the heuristics).  `parse` stands for `json.loads`.
   */
  method NormalizeJson(text: string, caseType: string, parse: string -> Option<Json>,
                       parseFloat: string -> Option<real>, parseInt: string -> Option<int>)
    returns (r: Option<map<string, Json>>)
    ensures r.Some? <==>
              && ParsedObject(text, parse).Some?
              && FloatOf(Get(ParsedObject(text, parse).value, "urgency", JFloat(0.5)), parseFloat).Some?
              && IntOf(Get(ParsedObject(text, parse).value, "estimated_duration", JInt(60)), parseInt).Some?
    ensures r.Some? ==>
              var m := ParsedObject(text, parse).value;
              r.value == Normalized(m, caseType, FloatOf(Get(m, "urgency", JFloat(0.5)), parseFloat).value,
                                    IntOf(Get(m, "estimated_duration", JInt(60)), parseInt).value)
    ensures r == Normalize(text, caseType, parse, parseFloat, parseInt)
  {
    var t := CleanReply(text);
    var parsed := parse(t);
    if !(parsed.Some? && parsed.value.JObject?) {
      return None;
    }
    var data := parsed.value.fields;
    ghost var m := data;
    assert ParsedObject(text, parse) == Some(m);
    var urgency := FloatOf(Get(data, "urgency", JFloat(0.5)), parseFloat);
    if urgency.None? {
      return None;
    }
    data := data["urgency" := JFloat(ClampReal(urgency.value, 0.0, 1.0))];
    var duration := IntOf(Get(data, "estimated_duration", JInt(60)), parseInt);
    assert duration == IntOf(Get(m, "estimated_duration", JInt(60)), parseInt);
    if duration.None? {
      return None;
    }
    data := data["estimated_duration" := JInt(Clamp(duration.value, 30, 300))];
    if "complexity" !in data {
      data := data["complexity" := JString("medium")];
    }
    if "reasoning" !in data {
      data := data["reasoning" := JString("Model analysis for " + caseType + " case")];
    }
    r := Some(data);
  }

  /** A reply fenced as a `json` code block is unwrapped to the trimmed body. */
  lemma FencedReply(body: string)
    requires '\n' !in body && '`' !in body
    ensures Unfenced("```json\n" + body + "\n```") == Trim(body, PySpace)
  {
    var parts := ["```json", body, "```"];
    var s := "```json\n" + body + "\n```";
    assert Join(parts, '\n') == s by {
      assert Join(parts[1..], '\n') == body + "\n" + "```" by {
        assert parts[1..][1..] == ["```"];
      }
    }
    forall k | 0 <= k < |parts| ensures '\n' !in parts[k] {
      if k == 0 {
        assert forall c :: c in "```json" ==> c != '\n';
      }
    }
    SplitJoin(parts, '\n');
    assert s[..3] == "```";
    assert InnerLines(s) == body by {
      assert Split(s, '\n')[1..2] == [body];
    }
    RemoveAllAbsent(body, "```json");
    RemoveAllAbsent(body, "```");
  }

  // ---------------------------------------------------------------------------
  // The entry point

  /** The analyser's answer: the heuristic result or the normalised model reply. */
  datatype Verdict = Heuristic(analysis: Analysis) | ModelReply(data: map<string, Json>)

  /** `not description or not description.strip()`. */
  predicate Blank(description: Option<string>) {
    description.None? || Trim(description.value, PySpace) == []
  }

  /**
   * `analyze_case_with_ai`.  `reply` is the model's stripped answer, or `None`
   * when the model is unavailable, fails or times out; the model call itself
   * is not modelled.
   */
  method AnalyzeWithAI(caseType: string, description: Option<string>, reply: Option<string>,
                       parse: string -> Option<Json>, parseFloat: string -> Option<real>,
                       parseInt: string -> Option<int>)
    returns (v: Verdict)
    ensures Blank(description) ==> v == Heuristic(RuleBased(caseType, description))
    ensures reply.None? ==> v == Heuristic(RuleBased(caseType, description))
    ensures v.ModelReply? ==> !Blank(description) && reply.Some? && ParsedObject(reply.value, parse).Some?
    ensures v == if Blank(description) || reply.None? || Normalize(reply.value, caseType, parse, parseFloat, parseInt).None?
                 then Heuristic(RuleBased(caseType, description))
                 else ModelReply(Normalize(reply.value, caseType, parse, parseFloat, parseInt).value)
  {
    if Blank(description) {
      var a := AnalyzeRuleBased(caseType, description);
      return Heuristic(a);
    }
    if reply.Some? {
      var data := NormalizeJson(reply.value, caseType, parse, parseFloat, parseInt);
      if data.Some? {
        return ModelReply(data.value);
      }
    }
    var a := AnalyzeRuleBased(caseType, description);
    v := Heuristic(a);
  }

  /** A blank description is exactly one with no non-space character. */
  lemma BlankIff(description: Option<string>)
    requires description.Some?
    ensures Blank(description) <==> forall k :: 0 <= k < |description.value| ==> PySpace(description.value[k])
  {
    TrimEmptyIff(description.value, PySpace);
  }
}
