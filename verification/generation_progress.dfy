/** The progress panel (frontend/src/components/GenerationProgress.tsx): the percentage
    bar, whether the streamed text looks like JSON, the logo read from it, the icon
    for the current step and the status badge. The panel reads a `generationProgress`
    record that neither store defines; its fields are parameters here. */
module GenerationProgress {
  import opened Wrappers
  import opened Text
  import opened Json
  import opened JsValue

  // ---------------------------------------------------------------------------
  // Progress

  const TotalSteps := 6

  /** `Math.min(100, completedSteps.length / 6 * 100)`, over the reals. */
  function Progress(completed: nat): (p: real)
    ensures 0.0 <= p <= 100.0
    ensures completed >= TotalSteps ==> p == 100.0
    ensures completed < TotalSteps ==> p * TotalSteps as real == completed as real * 100.0
  {
    var raw := completed as real / TotalSteps as real * 100.0;
    if raw < 100.0 then raw else 100.0
  }

  /** More completed steps never lower the bar, and every step below six raises it. */
  lemma ProgressMonotone(a: nat, b: nat)
    requires a <= b
    ensures Progress(a) <= Progress(b)
    ensures b < TotalSteps && a < b ==> Progress(a) < Progress(b)
  {
  }

  // ---------------------------------------------------------------------------
  // Streamed content

  /** `streamedContent.trim().startsWith('{')`. */
  predicate IsJsonContent(content: string) {
    StartsWith(Strip(content), "{")
  }

  /** The first character of the text that is not whitespace is `{`. */
  predicate OpensWithBrace(s: string) {
    exists i :: 0 <= i < |s| && s[i] == '{' && forall j :: 0 <= j < i ==> IsSpace(s[j])
  }

  /** Stripping the start removes exactly the leading whitespace. */
  lemma {:induction false} StripStartSkipsSpaces(s: string)
    ensures forall j :: 0 <= j < |s| - |StripStart(s)| ==> IsSpace(s[j])
    decreases |s|
  {
    if |s| > 0 && IsSpace(s[0]) {
      StripStartSkipsSpaces(s[1..]);
      assert forall j :: 1 <= j < |s| ==> s[1..][j - 1] == s[j];
    }
  }

  /** Stripping the end of a text that opens with a non-space keeps that first
      character. */
  lemma {:induction false} StripEndKeepsFirst(t: string)
    requires |t| > 0 && !IsSpace(t[0])
    ensures |StripEnd(t)| > 0 && StripEnd(t)[0] == t[0]
    decreases |t|
  {
    if IsSpace(t[|t| - 1]) {
      assert |t| > 1;
      StripEndKeepsFirst(t[..|t| - 1]);
    }
  }

  /** Given the first non-space position `k`, the text opens with a brace exactly
      when that character is one. */
  lemma OpensAt(s: string, k: nat)
    requires k < |s| && !IsSpace(s[k]) && forall j :: 0 <= j < k ==> IsSpace(s[j])
    ensures OpensWithBrace(s) <==> s[k] == '{'
  {
    if OpensWithBrace(s) {
      var i :| 0 <= i < |s| && s[i] == '{' && forall j :: 0 <= j < i ==> IsSpace(s[j]);
      assert !IsSpace('{');
      assert i == k;
    }
  }

  lemma StartsWithBrace(t: string)
    ensures StartsWith(t, "{") <==> |t| > 0 && t[0] == '{'
  {
    if |t| > 0 && t[0] == '{' {
      assert t[..1] == "{";
    }
  }

  /** The JSON test holds exactly when the first non-whitespace character is `{`. */
  lemma IsJsonContentIff(s: string)
    ensures IsJsonContent(s) <==> OpensWithBrace(s)
  {
    var u := StripStart(s);
    var k := |s| - |u|;
    StripStartSkipsSpaces(s);
    StartsWithBrace(Strip(s));
    if |u| > 0 {
      assert u[0] == s[k];
      StripEndKeepsFirst(u);
      OpensAt(s, k);
    } else {
      assert Strip(s) == "";
      assert !OpensWithBrace(s) by {
        assert !IsSpace('{');
      }
    }
  }

  /** How `JSON.parse` of the whole content came out: a value, or a thrown error. */
  datatype Parsed = ParsedValue(value: Json) | ParseError

  /** The logo: none unless the content looks like JSON; then `parsed.logo` when
      truthy, none when falsy; when parsing throws, or the parsed value is `null` (whose
      property read throws), the first capture of the `"logo": "…"` pattern, if any.
      Both the parse and the pattern match are parameters. */
  function Logo(content: string, parsed: Parsed, logoCapture: Option<string>): (r: Option<Json>)
    ensures !IsJsonContent(content) ==> r.None?
    ensures IsJsonContent(content) && parsed.ParsedValue? && !parsed.value.JNull? ==>
      (r.Some? <==> Truthy(Field(parsed.value, "logo")))
    ensures IsJsonContent(content) && parsed.ParsedValue? && !parsed.value.JNull? && r.Some? ==>
      r == Field(parsed.value, "logo")
    ensures IsJsonContent(content) && (parsed.ParseError? || parsed.value.JNull?) ==>
      r == (if logoCapture.Some? then Some(JStr(logoCapture.value)) else None)
  {
    if !IsJsonContent(content) then None
    else
      var fromParse: Result<Option<Json>, string> :=
        if parsed.ParseError? then Failure("SyntaxError") else Prop(parsed.value, "logo");
      if fromParse.Failure? then
        (if logoCapture.Some? then Some(JStr(logoCapture.value)) else None)
      else if Truthy(fromParse.value) then fromParse.value
      else None
  }

  // ---------------------------------------------------------------------------
  // Step icon and badge

  datatype StepIcon = Cog | Rocket | Book | MapMarker | CheckCircle

  /** The icon of the current step: the first rule whose word the step contains. */
  function StepIconOf(step: string): (icon: StepIcon)
    ensures icon == Cog <==> Contains(step, "Подготовка")
    ensures icon == Rocket <==> !Contains(step, "Подготовка") && Contains(step, "Отправка")
    ensures icon == Book <==> (!Contains(step, "Подготовка") && !Contains(step, "Отправка") &&
      (Contains(step, "Генерация") || Contains(step, "Формирование")))
    ensures icon == MapMarker <==> (!Contains(step, "Подготовка") && !Contains(step, "Отправка") &&
      !Contains(step, "Генерация") && !Contains(step, "Формирование") &&
      (Contains(step, "Завершение") || Contains(step, "Обработка")))
  {
    if Contains(step, "Подготовка") then Cog
    else if Contains(step, "Отправка") then Rocket
    else if Contains(step, "Генерация") || Contains(step, "Формирование") then Book
    else if Contains(step, "Завершение") || Contains(step, "Обработка") then MapMarker
    else CheckCircle
  }

  /** The icon rules as a table, checked in order: the words a rule looks for and the
      icon it gives. */
  datatype IconRule = IconRule(words: seq<string>, icon: StepIcon)

  const IconRules: seq<IconRule> := [
    IconRule(["Подготовка"], Cog),
    IconRule(["Отправка"], Rocket),
    IconRule(["Генерация", "Формирование"], Book),
    IconRule(["Завершение", "Обработка"], MapMarker)]

  /** The step contains one of the words. */
  predicate Names(step: string, words: seq<string>) {
    exists k :: 0 <= k < |words| && Contains(step, words[k])
  }

  /** The icon of the first rule whose words the step names, and the check-circle
      when none does. */
  function RuleIcon(rules: seq<IconRule>, step: string): StepIcon {
    if |rules| == 0 then CheckCircle
    else if Names(step, rules[0].words) then rules[0].icon
    else RuleIcon(rules[1..], step)
  }

  lemma NamesOne(step: string, a: string)
    ensures Names(step, [a]) <==> Contains(step, a)
  {
    if Contains(step, a) {
      assert [a][0] == a;
    }
  }

  lemma NamesTwo(step: string, a: string, b: string)
    ensures Names(step, [a, b]) <==> Contains(step, a) || Contains(step, b)
  {
    if Contains(step, a) {
      assert [a, b][0] == a;
    } else if Contains(step, b) {
      assert [a, b][1] == b;
    }
  }

  /** The chain of `if`s is the rule table read top to bottom. */
  lemma StepIconByRules(step: string)
    ensures StepIconOf(step) == RuleIcon(IconRules, step)
  {
    NamesOne(step, "Подготовка");
    NamesOne(step, "Отправка");
    NamesTwo(step, "Генерация", "Формирование");
    NamesTwo(step, "Завершение", "Обработка");
    var r1 := IconRules[1..];
    var r2 := r1[1..];
    var r3 := r2[1..];
    assert IconRules[0] == IconRule(["Подготовка"], Cog);
    assert r1[0] == IconRule(["Отправка"], Rocket);
    assert r2[0] == IconRule(["Генерация", "Формирование"], Book);
    assert r3[0] == IconRule(["Завершение", "Обработка"], MapMarker);
    assert r3[1..] == [];
    assert RuleIcon(r3, step) == if Names(step, r3[0].words) then MapMarker else CheckCircle;
    assert RuleIcon(r2, step) == if Names(step, r2[0].words) then Book else RuleIcon(r3, step);
    assert RuleIcon(r1, step) == if Names(step, r1[0].words) then Rocket else RuleIcon(r2, step);
  }

  /** A step naming two stages gets the earlier rule's icon. */
  lemma StepIconFirstMatch(a: string, b: string)
    ensures StepIconOf(a + "Подготовка" + b) == Cog
    ensures !Contains(a + "Отправка" + b, "Подготовка") ==> StepIconOf(a + "Отправка" + b) == Rocket
  {
    ContainsMiddle(a, "Подготовка", b);
    ContainsMiddle(a, "Отправка", b);
  }

  datatype Badge = Badge(text: string, colorScheme: string)

  /** The status badge: "В процессе" in blue while generating, "Завершено" in green
      after. */
  function StatusBadge(isGenerating: bool): (b: Badge)
    ensures b.text == "В процессе" <==> isGenerating
    ensures b.colorScheme == "blue" <==> isGenerating
    ensures !isGenerating ==> b == Badge("Завершено", "green")
  {
    if isGenerating then Badge("В процессе", "blue") else Badge("Завершено", "green")
  }

  /** The badge tells the two states apart: its text alone, or its colour alone,
      recovers whether generation is running. */
  lemma BadgeShowsState(x: bool, y: bool)
    ensures StatusBadge(x).text == StatusBadge(y).text <==> x == y
    ensures StatusBadge(x).colorScheme == StatusBadge(y).colorScheme <==> x == y
  {
  }
}
