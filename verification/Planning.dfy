/**
 Plan repair in front of plan validation, over arbitrary JSON. Repair widens what a small model may
 return; validation stays the gate. `repr` is Python's `str` of a value that is not a string.
 */
module Planning {
  import opened Basics

  const MAX_STEPS := 12

  const ALIASES: seq<string> := ["description", "prompt", "task", "details"]

  /** The step types that execute their instruction as the prompt. */
  const PROMPTED: set<string> := {"model_call", "compare_models"}

  // ---- Python's reading of loose values ----

  predicate Falsy(value: Json) {
    match value
    case JNull => true
    case JBool(flag) => !flag
    case JInt(n) => n == 0
    case JReal(x) => x == 0.0
    case JStr(text) => text == ""
    case JArr(items) => items == []
    case JObj(fields) => fields == map[]
  }

  /** `str(value or "")`. */
  function Text(repr: Json -> string, value: Json): string {
    if Falsy(value) then "" else if value.JStr? then value.text else repr(value)
  }

  /** The text of a true value that is not a string is never blank. */
  ghost predicate Visible(repr: Json -> string) {
    forall value :: !Falsy(value) && !value.JStr? ==> !Blank(repr(value))
  }

  function Decimal(n: nat): string {
    if n < 10 then [('0' as int + n) as char] else Decimal(n / 10) + [('0' as int + n % 10) as char]
  }

  // ---- repair ----

  /** The first alias with something to say, from position `from` on. */
  function FirstAlias(repr: Json -> string, raw: map<string, Json>, from: nat): string
    decreases |ALIASES| - from
  {
    if from >= |ALIASES| then ""
    else
      var value := Strip(Text(repr, Get(raw, ALIASES[from])));
      if value != "" then value else FirstAlias(repr, raw, from + 1)
  }

  /** A missing or blank instruction is taken from the first alias that has one. */
  function WithInstruction(repr: Json -> string, raw: map<string, Json>): map<string, Json> {
    if Strip(Text(repr, Get(raw, "instruction"))) == "" && FirstAlias(repr, raw, 0) != "" then
      raw["instruction" := JStr(FirstAlias(repr, raw, 0))]
    else raw
  }

  function Title(repr: Json -> string, raw: map<string, Json>): string {
    var title := Get(raw, "title");
    Strip(Text(repr, if Falsy(title) then Get(raw, "name") else title))
  }

  /** A missing title comes from the name, then from the instruction, then from the step's number. */
  function WithTitle(repr: Json -> string, raw: map<string, Json>, number: nat): map<string, Json> {
    var title := Title(repr, raw);
    if title != "" then
      if Falsy(Get(raw, "title")) then raw["title" := JStr(title)] else raw
    else
      var instruction := Strip(Text(repr, Get(raw, "instruction")));
      raw["title" := JStr(if instruction != "" then Clipped(instruction) else "Step " + Decimal(number))]
  }

  function Clipped(text: string): string {
    if |text| <= 60 then text else text[..60]
  }

  function RepairStep(repr: Json -> string, raw: map<string, Json>, number: nat): map<string, Json> {
    WithTitle(repr, WithInstruction(repr, raw), number)
  }

  predicate Allowlisted(allowed: set<string>, raw: Json) {
    raw.JObj? && Get(raw.fields, "type").JStr? && Get(raw.fields, "type").text in allowed
  }

  function RepairSteps(repr: Json -> string, allowed: set<string>, steps: seq<Json>): seq<Json> {
    if |steps| == 0 then []
    else
      var front, last := RepairSteps(repr, allowed, steps[..|steps| - 1]), steps[|steps| - 1];
      if Allowlisted(allowed, last) then front + [JObj(RepairStep(repr, last.fields, |front| + 1))] else front
  }

  function Texts(items: seq<Json>): seq<Json> {
    if |items| == 0 then []
    else Texts(items[..|items| - 1]) + (if items[|items| - 1].JStr? then [items[|items| - 1]] else [])
  }

  function RepairPlan(repr: Json -> string, allowed: set<string>, data: Json): Json {
    if !data.JObj? then data
    else
      var assumptions, steps := Get(data.fields, "assumptions"), Get(data.fields, "steps");
      JObj(data.fields["assumptions" := JArr(if assumptions.JArr? then Texts(assumptions.items) else [])]
                      ["steps" := JArr(if steps.JArr? then RepairSteps(repr, allowed, steps.items) else [])])
  }

  /** One step's repair, with the alias loop. */
  method RepairOne(repr: Json -> string, given: map<string, Json>, number: nat) returns (raw: map<string, Json>)
    ensures raw == RepairStep(repr, given, number)
  {
    raw := given;
    if Strip(Text(repr, Get(raw, "instruction"))) == "" {
      var i := 0;
      while i < |ALIASES|
        invariant 0 <= i <= |ALIASES|
        invariant raw == given && FirstAlias(repr, given, 0) == FirstAlias(repr, given, i)
      {
        var value := Strip(Text(repr, Get(raw, ALIASES[i])));
        if value != "" {
          raw := raw["instruction" := JStr(value)];
          break;
        }
        i := i + 1;
      }
    }
    assert raw == WithInstruction(repr, given);
    var title := Title(repr, raw);
    if title != "" && Falsy(Get(raw, "title")) {
      raw := raw["title" := JStr(title)];
    }
    if title == "" {
      var instruction := Strip(Text(repr, Get(raw, "instruction")));
      raw := raw["title" := JStr(if instruction != "" then Clipped(instruction) else "Step " + Decimal(number))];
    }
  }

  method RepairPlanData(repr: Json -> string, allowed: set<string>, data: Json) returns (repaired: Json)
    ensures repaired == RepairPlan(repr, allowed, data)
    ensures repaired.JObj? <==> data.JObj?
  {
    if !data.JObj? {
      return data;
    }
    var assumptions := Get(data.fields, "assumptions");
    var kept: seq<Json> := [];
    if assumptions.JArr? {
      var j := 0;
      while j < |assumptions.items|
        invariant 0 <= j <= |assumptions.items|
        invariant kept == Texts(assumptions.items[..j])
      {
        assert assumptions.items[..j + 1][..j] == assumptions.items[..j];
        if assumptions.items[j].JStr? {
          kept := kept + [assumptions.items[j]];
        }
        j := j + 1;
      }
      assert assumptions.items[..j] == assumptions.items;
    }
    var fields := data.fields["assumptions" := JArr(kept)];
    var steps := Get(data.fields, "steps");
    if !steps.JArr? {
      return JObj(fields["steps" := JArr([])]);
    }
    var out: seq<Json> := [];
    var i := 0;
    while i < |steps.items|
      invariant 0 <= i <= |steps.items|
      invariant out == RepairSteps(repr, allowed, steps.items[..i])
    {
      assert steps.items[..i + 1][..i] == steps.items[..i];
      if Allowlisted(allowed, steps.items[i]) {
        var raw := RepairOne(repr, steps.items[i].fields, |out| + 1);
        out := out + [JObj(raw)];
      }
      i := i + 1;
    }
    assert steps.items[..i] == steps.items;
    repaired := JObj(fields["steps" := JArr(out)]);
  }

  // ---- what repair does to one step ----

  /** Repair touches only the title and the instruction. */
  lemma RepairTouchesOnly(repr: Json -> string, raw: map<string, Json>, number: nat, key: string)
    requires key != "title" && key != "instruction"
    ensures var fixed := RepairStep(repr, raw, number);
            (key in fixed <==> key in raw) && Get(fixed, key) == Get(raw, key)
  {
  }

  lemma ClippedShows(text: string)
    requires text != "" && !IsSpace(text[0])
    ensures !Blank(Clipped(text))
  {
    assert Clipped(text)[0] == text[0];
  }

  lemma StripShows(text: string)
    requires Strip(text) != ""
    ensures !IsSpace(Strip(text)[0]) && !Blank(Strip(text)) && !Blank(text)
  {
    StripLeftEnds(text);
    StripRightEnds(StripLeft(text));
    assert Strip(text)[0] == StripLeft(text)[0];
    StripIsStable(text);
  }

  /** Unless the title is a true value of another type, the repaired title is a visible string. */
  lemma RepairedTitle(repr: Json -> string, raw: map<string, Json>, number: nat)
    requires Falsy(Get(raw, "title")) || Get(raw, "title").JStr?
    ensures var title := Get(RepairStep(repr, raw, number), "title"); title.JStr? && !Blank(title.text)
  {
    var mid := WithInstruction(repr, raw);
    assert Get(mid, "title") == Get(raw, "title");
    if Title(repr, mid) != "" {
      StripShows(Text(repr, if Falsy(Get(mid, "title")) then Get(mid, "name") else Get(mid, "title")));
    } else {
      var instruction := Strip(Text(repr, Get(mid, "instruction")));
      if instruction != "" {
        StripShows(Text(repr, Get(mid, "instruction")));
        ClippedShows(instruction);
      } else {
        assert !IsSpace(("Step " + Decimal(number))[0]);
      }
    }
  }

  /** What a loose field says, white space aside. */
  function Said(repr: Json -> string, raw: map<string, Json>, key: string): string {
    Strip(Text(repr, Get(raw, key)))
  }

  /** Where a repaired instruction comes from: its own text, then the aliases in their order. */
  lemma RepairedInstruction(repr: Json -> string, raw: map<string, Json>, number: nat)
    ensures Get(RepairStep(repr, raw, number), "instruction") ==
            if Said(repr, raw, "instruction") != "" then Get(raw, "instruction")
            else if Said(repr, raw, "description") != "" then JStr(Said(repr, raw, "description"))
            else if Said(repr, raw, "prompt") != "" then JStr(Said(repr, raw, "prompt"))
            else if Said(repr, raw, "task") != "" then JStr(Said(repr, raw, "task"))
            else if Said(repr, raw, "details") != "" then JStr(Said(repr, raw, "details"))
            else Get(raw, "instruction")
  {
    assert FirstAlias(repr, raw, 3) == Said(repr, raw, "details") by {
      assert FirstAlias(repr, raw, 4) == "";
    }
    assert FirstAlias(repr, raw, 2) ==
           if Said(repr, raw, "task") != "" then Said(repr, raw, "task") else FirstAlias(repr, raw, 3);
    assert FirstAlias(repr, raw, 1) ==
           if Said(repr, raw, "prompt") != "" then Said(repr, raw, "prompt") else FirstAlias(repr, raw, 2);
  }

  /** Where a repaired title comes from: a visible one stays, else the name, the instruction's start, or the number. */
  lemma TitleComesFrom(repr: Json -> string, raw: map<string, Json>, number: nat)
    ensures var fixed := RepairStep(repr, raw, number);
            var said := Said(repr, fixed, "instruction");
            Get(fixed, "title") ==
              if !Falsy(Get(raw, "title")) && Said(repr, raw, "title") != "" then Get(raw, "title")
              else if Falsy(Get(raw, "title")) && Said(repr, raw, "name") != "" then JStr(Said(repr, raw, "name"))
              else if said == "" then JStr("Step " + Decimal(number))
              else if |said| > 60 then JStr(said[..60])
              else JStr(said)
  {
    var mid := WithInstruction(repr, raw);
    assert Get(mid, "title") == Get(raw, "title") && Get(mid, "name") == Get(raw, "name");
    assert Get(RepairStep(repr, raw, number), "instruction") == Get(mid, "instruction");
  }

  /** A numeral read back. */
  function Numeral(text: string): int {
    if |text| == 0 then 0 else 10 * Numeral(text[..|text| - 1]) + (text[|text| - 1] as int - '0' as int)
  }

  lemma {:induction false} DecimalReadsBack(n: nat)
    ensures Numeral(Decimal(n)) == n && |Decimal(n)| > 0
    ensures forall k :: 0 <= k < |Decimal(n)| ==> '0' <= Decimal(n)[k] <= '9'
    ensures n > 0 ==> Decimal(n)[0] != '0'
    decreases n
  {
    if n < 10 {
      assert Decimal(n)[..0] == "";
    } else {
      DecimalReadsBack(n / 10);
      assert Decimal(n)[..|Decimal(n)| - 1] == Decimal(n / 10);
    }
  }

  /** A step whose instruction has been filled, or cannot be, and whose title says something. */
  ghost predicate Settled(repr: Json -> string, raw: map<string, Json>) {
    && (Strip(Text(repr, Get(raw, "instruction"))) != "" || FirstAlias(repr, raw, 0) == "")
    && Title(repr, raw) != "" && !Falsy(Get(raw, "title"))
  }

  lemma SettledStays(repr: Json -> string, raw: map<string, Json>, number: nat)
    requires Settled(repr, raw)
    ensures RepairStep(repr, raw, number) == raw
  {
  }

  lemma {:induction false} AliasesIgnore(repr: Json -> string, raw: map<string, Json>, key: string, value: Json,
                                         from: nat)
    requires key == "title" || key == "instruction"
    ensures FirstAlias(repr, raw[key := value], from) == FirstAlias(repr, raw, from)
    decreases |ALIASES| - from
  {
    if from < |ALIASES| {
      assert ALIASES[from] in ALIASES;
      AliasesIgnore(repr, raw, key, value, from + 1);
    }
  }

  /** The first alias with something to say is stripped already. */
  lemma {:induction false} AliasIsStripped(repr: Json -> string, raw: map<string, Json>, from: nat)
    ensures Strip(FirstAlias(repr, raw, from)) == FirstAlias(repr, raw, from)
    decreases |ALIASES| - from
  {
    if from < |ALIASES| {
      StripIsStable(Text(repr, Get(raw, ALIASES[from])));
      AliasIsStripped(repr, raw, from + 1);
    }
  }

  lemma InstructionSettles(repr: Json -> string, raw: map<string, Json>)
    ensures var mid := WithInstruction(repr, raw);
            Strip(Text(repr, Get(mid, "instruction"))) != "" || FirstAlias(repr, mid, 0) == ""
  {
    AliasIsStripped(repr, raw, 0);
  }

  /** Repairing a title leaves the instruction settled, and settles the title. */
  lemma RepairSettles(repr: Json -> string, raw: map<string, Json>, number: nat)
    requires Visible(repr)
    ensures Settled(repr, RepairStep(repr, raw, number))
  {
    var mid := WithInstruction(repr, raw);
    var fixed := RepairStep(repr, raw, number);
    InstructionSettles(repr, raw);
    if fixed != mid {
      AliasesIgnore(repr, mid, "title", fixed["title"], 0);
      assert Get(fixed, "instruction") == Get(mid, "instruction");
    }
    TitleSettles(repr, mid, number);
  }

  lemma TitleSettles(repr: Json -> string, raw: map<string, Json>, number: nat)
    requires Visible(repr)
    ensures var fixed := WithTitle(repr, raw, number); Title(repr, fixed) != "" && !Falsy(Get(fixed, "title"))
  {
    if Title(repr, raw) != "" {
      StripIsStable(Text(repr, if Falsy(Get(raw, "title")) then Get(raw, "name") else Get(raw, "title")));
    } else {
      var instruction := Strip(Text(repr, Get(raw, "instruction")));
      if instruction != "" {
        StripShows(Text(repr, Get(raw, "instruction")));
        ClippedShows(instruction);
        StripIsStable(Clipped(instruction));
      } else {
        assert !IsSpace(("Step " + Decimal(number))[0]);
        StripIsStable("Step " + Decimal(number));
      }
    }
  }

  // ---- what repair does to a plan ----

  /** The allowlisted object steps, in order. */
  function Kept(allowed: set<string>, steps: seq<Json>): (kept: seq<Json>)
    ensures forall k :: 0 <= k < |kept| ==> Allowlisted(allowed, kept[k])
  {
    if |steps| == 0 then []
    else
      Kept(allowed, steps[..|steps| - 1])
      + (if Allowlisted(allowed, steps[|steps| - 1]) then [steps[|steps| - 1]] else [])
  }

  /** One more step: kept and repaired, or dropped by both. */
  lemma RepairSnoc(repr: Json -> string, allowed: set<string>, steps: seq<Json>)
    requires |steps| > 0
    ensures var front, last := steps[..|steps| - 1], steps[|steps| - 1];
            var kept, out := Kept(allowed, front), RepairSteps(repr, allowed, front);
            if Allowlisted(allowed, last) then
              && Kept(allowed, steps) == kept + [last]
              && RepairSteps(repr, allowed, steps) == out + [JObj(RepairStep(repr, last.fields, |out| + 1))]
            else Kept(allowed, steps) == kept && RepairSteps(repr, allowed, steps) == out
  {
  }

  /** Repair keeps exactly the allowlisted object steps, in order, all of them, and repairs each by its place. */
  lemma {:induction false} RepairKeepsAllowlisted(repr: Json -> string, allowed: set<string>, steps: seq<Json>)
    ensures var kept, out := Kept(allowed, steps), RepairSteps(repr, allowed, steps);
            && |out| == |kept|
            && forall k :: 0 <= k < |kept| ==> out[k] == JObj(RepairStep(repr, kept[k].fields, k + 1))
    decreases |steps|
  {
    if |steps| > 0 {
      var front, last := steps[..|steps| - 1], steps[|steps| - 1];
      RepairKeepsAllowlisted(repr, allowed, front);
      RepairSnoc(repr, allowed, steps);
    }
  }

  lemma {:induction false} SettledPlanStays(repr: Json -> string, allowed: set<string>, steps: seq<Json>)
    requires forall k :: 0 <= k < |steps| ==> Allowlisted(allowed, steps[k]) && Settled(repr, steps[k].fields)
    ensures RepairSteps(repr, allowed, steps) == steps
    decreases |steps|
  {
    if |steps| > 0 {
      var front := steps[..|steps| - 1];
      SettledPlanStays(repr, allowed, front);
      SettledStays(repr, steps[|steps| - 1].fields, |front| + 1);
      assert steps == front + [steps[|steps| - 1]];
    }
  }

  lemma {:induction false} TextsAreStrings(items: seq<Json>)
    ensures forall k :: 0 <= k < |Texts(items)| ==> Texts(items)[k].JStr?
    decreases |items|
  {
    if |items| > 0 {
      TextsAreStrings(items[..|items| - 1]);
    }
  }

  lemma {:induction false} StringsStay(items: seq<Json>)
    requires forall k :: 0 <= k < |items| ==> items[k].JStr?
    ensures Texts(items) == items
    decreases |items|
  {
    if |items| > 0 {
      StringsStay(items[..|items| - 1]);
      assert items == items[..|items| - 1] + [items[|items| - 1]];
    }
  }

  /** Repairing twice is repairing once. */
  lemma RepairIsIdempotent(repr: Json -> string, allowed: set<string>, data: Json)
    requires Visible(repr)
    ensures RepairPlan(repr, allowed, RepairPlan(repr, allowed, data)) == RepairPlan(repr, allowed, data)
  {
    if data.JObj? {
      var assumptions, steps := Get(data.fields, "assumptions"), Get(data.fields, "steps");
      if assumptions.JArr? {
        TextsAreStrings(assumptions.items);
        StringsStay(Texts(assumptions.items));
      }
      if steps.JArr? {
        RepairedStepsStay(repr, allowed, steps.items);
      }
      var once := RepairPlan(repr, allowed, data);
      assert RepairPlan(repr, allowed, once).fields == once.fields;
    }
  }

  lemma RepairedStepsStay(repr: Json -> string, allowed: set<string>, steps: seq<Json>)
    requires Visible(repr)
    ensures var out := RepairSteps(repr, allowed, steps); RepairSteps(repr, allowed, out) == out
  {
    var kept, out := Kept(allowed, steps), RepairSteps(repr, allowed, steps);
    RepairKeepsAllowlisted(repr, allowed, steps);
    forall k | 0 <= k < |out| ensures Allowlisted(allowed, out[k]) && Settled(repr, out[k].fields) {
      RepairSettles(repr, kept[k].fields, k + 1);
      RepairTouchesOnly(repr, kept[k].fields, k + 1, "type");
    }
    SettledPlanStays(repr, allowed, out);
  }

  // ---- validation ----

  datatype PlanStep = PlanStep(
    title: string, kind: string, instruction: string, expectedOutput: string, requiresApproval: bool,
    inputRefs: Option<map<string, Json>>, params: Option<map<string, Json>>)

  datatype Plan = Plan(assumptions: seq<Json>, steps: seq<PlanStep>)

  function NeededStr(raw: map<string, Json>, key: string): Result<string> {
    if key in raw && raw[key].JStr? then Ok(raw[key].text) else Bad
  }

  /** A defaulted field may be missing, but not null. */
  function DefaultStr(raw: map<string, Json>, key: string): Result<string> {
    if key !in raw then Ok("") else if raw[key].JStr? then Ok(raw[key].text) else Bad
  }

  function Lower(text: string): string {
    seq(|text|, k requires 0 <= k < |text| =>
      if 'A' <= text[k] <= 'Z' then ((text[k] as int) + 32) as char else text[k])
  }

  lemma LowerFolds(text: string, k: nat, i: nat)
    requires k < |text| && i < 26
    ensures |Lower(text)| == |text|
    ensures text[k] == "ABCDEFGHIJKLMNOPQRSTUVWXYZ"[i] ==> Lower(text)[k] == "abcdefghijklmnopqrstuvwxyz"[i]
    ensures text[k] !in "ABCDEFGHIJKLMNOPQRSTUVWXYZ" ==> Lower(text)[k] == text[k]
  {
    if 'A' <= text[k] <= 'Z' {
      assert text[k] == "ABCDEFGHIJKLMNOPQRSTUVWXYZ"[text[k] as int - 65];
    }
  }

  const YES: set<string> := {"1", "on", "t", "true", "y", "yes"}

  const NO: set<string> := {"0", "off", "f", "false", "n", "no"}

  /** The lenient boolean of the plan schema: booleans, the numbers 0 and 1, and the usual words. */
  function LaxBool(raw: map<string, Json>, key: string): Result<bool> {
    if key !in raw then Ok(false)
    else match raw[key]
      case JBool(flag) => Ok(flag)
      case JInt(n) => if n == 0 then Ok(false) else if n == 1 then Ok(true) else Bad
      case JReal(x) => if x == 0.0 then Ok(false) else if x == 1.0 then Ok(true) else Bad
      case JStr(text) => if Lower(text) in YES then Ok(true) else if Lower(text) in NO then Ok(false) else Bad
      case _ => Bad
  }

  predicate StringList(value: Json) {
    value.JArr? && forall k :: 0 <= k < |value.items| ==> value.items[k].JStr?
  }

  function ValidRefs(raw: map<string, Json>): Result<Option<map<string, Json>>> {
    match Get(raw, "input_refs")
    case JNull => Ok(None)
    case JObj(refs) => if forall key :: key in refs ==> StringList(refs[key]) then Ok(Some(refs)) else Bad
    case _ => Bad
  }

  function ValidParams(raw: map<string, Json>): Result<Option<map<string, Json>>> {
    match Get(raw, "params")
    case JNull => Ok(None)
    case JObj(params) => Ok(Some(params))
    case _ => Bad
  }

  function ValidateStep(allowed: set<string>, data: Json): Result<PlanStep> {
    if !data.JObj? then Bad
    else
      var raw := data.fields;
      var title :- NeededStr(raw, "title");
      var kind :- NeededStr(raw, "type");
      var instruction :- DefaultStr(raw, "instruction");
      var expectedOutput :- DefaultStr(raw, "expected_output");
      var requiresApproval :- LaxBool(raw, "requires_approval");
      var inputRefs :- ValidRefs(raw);
      var params :- ValidParams(raw);
      if kind !in allowed || (kind in PROMPTED && Blank(instruction)) then Bad
      else Ok(PlanStep(title, kind, instruction, expectedOutput, requiresApproval, inputRefs, params))
  }

  predicate IsYes(value: Json) {
    value == JBool(true) || value == JInt(1) || value == JReal(1.0)
    || (value.JStr? && Lower(value.text) in {"1", "on", "t", "true", "y", "yes"})
  }

  predicate IsNo(value: Json) {
    value == JBool(false) || value == JInt(0) || value == JReal(0.0)
    || (value.JStr? && Lower(value.text) in {"0", "off", "f", "false", "n", "no"})
  }

  ghost predicate ListsOfStrings(value: Json) {
    value.JObj? && forall key :: key in value.fields ==>
      value.fields[key].JArr? && forall item :: item in value.fields[key].items ==> item.JStr?
  }

  /** Whatever the planner returned, a step is accepted exactly when its fields hold what they may. */
  lemma StepAccepted(allowed: set<string>, data: Json)
    ensures ValidateStep(allowed, data).Ok? <==>
      && data.JObj?
      && Get(data.fields, "title").JStr?
      && Get(data.fields, "type").JStr? && Get(data.fields, "type").text in allowed
      && ("instruction" in data.fields ==> data.fields["instruction"].JStr?)
      && ("expected_output" in data.fields ==> data.fields["expected_output"].JStr?)
      && ("requires_approval" in data.fields ==>
            IsYes(data.fields["requires_approval"]) || IsNo(data.fields["requires_approval"]))
      && (Get(data.fields, "input_refs").JNull? || ListsOfStrings(Get(data.fields, "input_refs")))
      && (Get(data.fields, "params").JNull? || Get(data.fields, "params").JObj?)
      && (Get(data.fields, "type").text in {"model_call", "compare_models"} ==>
            Get(data.fields, "instruction").JStr? && !Blank(Get(data.fields, "instruction").text))
  {
    if data.JObj? && Get(data.fields, "input_refs").JObj? {
      RefsAreLists(Get(data.fields, "input_refs").fields);
    }
  }

  lemma RefsAreLists(refs: map<string, Json>)
    ensures (forall key :: key in refs ==> StringList(refs[key])) <==> ListsOfStrings(JObj(refs))
  {
    forall key | key in refs && refs[key].JArr?
      ensures StringList(refs[key]) <==> forall item :: item in refs[key].items ==> item.JStr? {
      var items := refs[key].items;
      if forall item :: item in items ==> item.JStr? {
        assert forall k :: 0 <= k < |items| ==> items[k] in items;
      }
    }
  }

  /** An accepted step says what its fields say: what is missing is empty, and no approval flag is off. */
  lemma StepSays(allowed: set<string>, data: Json)
    requires ValidateStep(allowed, data).Ok?
    ensures var (step, raw) := (ValidateStep(allowed, data).value, data.fields);
      && Get(raw, "title") == JStr(step.title) && Get(raw, "type") == JStr(step.kind)
      && (if "instruction" in raw then raw["instruction"] == JStr(step.instruction) else step.instruction == "")
      && (if "expected_output" in raw then raw["expected_output"] == JStr(step.expectedOutput)
          else step.expectedOutput == "")
      && (step.requiresApproval <==> "requires_approval" in raw && IsYes(raw["requires_approval"]))
      && Get(raw, "input_refs") == (if step.inputRefs.Some? then JObj(step.inputRefs.value) else JNull)
      && Get(raw, "params") == (if step.params.Some? then JObj(step.params.value) else JNull)
  {
  }

  function ValidateSteps(allowed: set<string>, items: seq<Json>): Result<seq<PlanStep>> {
    if |items| == 0 then Ok([])
    else
      var front :- ValidateSteps(allowed, items[..|items| - 1]);
      var last :- ValidateStep(allowed, items[|items| - 1]);
      Ok(front + [last])
  }

  function ValidatePlan(allowed: set<string>, data: Json): Result<Plan> {
    if !data.JObj? || "steps" !in data.fields || !data.fields["steps"].JArr? then Bad
    else
      var assumptions := if "assumptions" in data.fields then data.fields["assumptions"] else JArr([]);
      var items := data.fields["steps"].items;
      var steps :- ValidateSteps(allowed, items);
      if !StringList(assumptions) || |items| == 0 || |items| > MAX_STEPS then Bad
      else Ok(Plan(assumptions.items, steps))
  }

  lemma {:induction false} AcceptedSteps(allowed: set<string>, items: seq<Json>)
    requires ValidateSteps(allowed, items).Ok?
    ensures var steps := ValidateSteps(allowed, items).value;
            && |steps| == |items|
            && forall k :: 0 <= k < |steps| ==>
                 steps[k].kind in allowed && (steps[k].kind in PROMPTED ==> !Blank(steps[k].instruction))
    decreases |items|
  {
    if |items| > 0 {
      AcceptedSteps(allowed, items[..|items| - 1]);
    }
  }

  lemma {:induction false} StepsAccepted(allowed: set<string>, items: seq<Json>)
    ensures ValidateSteps(allowed, items).Ok? <==> forall k :: 0 <= k < |items| ==> ValidateStep(allowed, items[k]).Ok?
    ensures ValidateSteps(allowed, items).Ok? ==>
      && |ValidateSteps(allowed, items).value| == |items|
      && forall k :: 0 <= k < |items| ==> ValidateStep(allowed, items[k]) == Ok(ValidateSteps(allowed, items).value[k])
    decreases |items|
  {
    if |items| > 0 {
      StepsAccepted(allowed, items[..|items| - 1]);
      assert forall k :: 0 <= k < |items| - 1 ==> items[..|items| - 1][k] == items[k];
    }
  }

  /** A plan is accepted exactly when it has one to twelve steps, all acceptable, and its assumptions are strings. */
  lemma PlanAccepted(allowed: set<string>, data: Json)
    ensures ValidatePlan(allowed, data).Ok? <==>
      && data.JObj? && Get(data.fields, "steps").JArr?
      && 1 <= |Get(data.fields, "steps").items| <= 12
      && (forall k :: 0 <= k < |Get(data.fields, "steps").items| ==>
            ValidateStep(allowed, Get(data.fields, "steps").items[k]).Ok?)
      && ("assumptions" in data.fields ==> StringList(data.fields["assumptions"]))
    ensures ValidatePlan(allowed, data).Ok? ==>
      var (plan, items) := (ValidatePlan(allowed, data).value, Get(data.fields, "steps").items);
      && plan.assumptions == (if "assumptions" in data.fields then data.fields["assumptions"].items else [])
      && |plan.steps| == |items|
      && forall k :: 0 <= k < |items| ==> ValidateStep(allowed, items[k]) == Ok(plan.steps[k])
  {
    if data.JObj? && Get(data.fields, "steps").JArr? {
      StepsAccepted(allowed, Get(data.fields, "steps").items);
    }
  }

  /** What the validator lets through: one to twelve steps of allowed types, with a visible prompt where one is run. */
  lemma AcceptedPlanIsSound(allowed: set<string>, data: Json)
    requires ValidatePlan(allowed, data).Ok?
    ensures var steps := ValidatePlan(allowed, data).value.steps;
            && 1 <= |steps| <= MAX_STEPS
            && forall k :: 0 <= k < |steps| ==>
                 steps[k].kind in allowed && (steps[k].kind in PROMPTED ==> !Blank(steps[k].instruction))
  {
    AcceptedSteps(allowed, data.fields["steps"].items);
  }

  // ---- acceptance ----

  /** The executable parts of a step, which no repair may change. */
  predicate SameWork(step: PlanStep, fixed: PlanStep) {
    && fixed.kind == step.kind && fixed.params == step.params && fixed.inputRefs == step.inputRefs
    && fixed.requiresApproval == step.requiresApproval && fixed.expectedOutput == step.expectedOutput
    && (!Blank(step.instruction) ==> fixed.instruction == step.instruction)
    && !Blank(fixed.title)
  }

  lemma FieldsStay(repr: Json -> string, raw: map<string, Json>, number: nat)
    ensures var fixed := RepairStep(repr, raw, number);
            && NeededStr(fixed, "type") == NeededStr(raw, "type")
            && DefaultStr(fixed, "expected_output") == DefaultStr(raw, "expected_output")
            && LaxBool(fixed, "requires_approval") == LaxBool(raw, "requires_approval")
            && ValidRefs(fixed) == ValidRefs(raw) && ValidParams(fixed) == ValidParams(raw)
  {
    RepairTouchesOnly(repr, raw, number, "type");
    RepairTouchesOnly(repr, raw, number, "expected_output");
    RepairTouchesOnly(repr, raw, number, "requires_approval");
    RepairTouchesOnly(repr, raw, number, "input_refs");
    RepairTouchesOnly(repr, raw, number, "params");
  }

  /** An instruction that is a string stays one, and a visible one stays itself. */
  lemma InstructionStays(repr: Json -> string, raw: map<string, Json>, number: nat)
    requires DefaultStr(raw, "instruction").Ok?
    ensures var was, now := DefaultStr(raw, "instruction"), DefaultStr(RepairStep(repr, raw, number), "instruction");
            now.Ok? && (!Blank(was.value) ==> now.value == was.value)
  {
    StripIsStable(Text(repr, Get(raw, "instruction")));
  }

  lemma AcceptedStepStays(repr: Json -> string, allowed: set<string>, data: Json, number: nat)
    requires ValidateStep(allowed, data).Ok?
    ensures Allowlisted(allowed, data)
    ensures var fixed := ValidateStep(allowed, JObj(RepairStep(repr, data.fields, number)));
            fixed.Ok? && SameWork(ValidateStep(allowed, data).value, fixed.value)
  {
    FieldsStay(repr, data.fields, number);
    InstructionStays(repr, data.fields, number);
    RepairedTitle(repr, data.fields, number);
  }

  lemma {:induction false} AcceptedStepsStay(repr: Json -> string, allowed: set<string>, items: seq<Json>)
    requires ValidateSteps(allowed, items).Ok?
    ensures var fixed := ValidateSteps(allowed, RepairSteps(repr, allowed, items));
            && |RepairSteps(repr, allowed, items)| == |items|
            && fixed.Ok? && |fixed.value| == |ValidateSteps(allowed, items).value| == |items|
            && forall k :: 0 <= k < |items| ==> SameWork(ValidateSteps(allowed, items).value[k], fixed.value[k])
    decreases |items|
  {
    if |items| > 0 {
      var front := items[..|items| - 1];
      AcceptedStepsStay(repr, allowed, front);
      AcceptedStepStays(repr, allowed, items[|items| - 1], |front| + 1);
      RepairSnoc(repr, allowed, items);
      assert RepairSteps(repr, allowed, items)[..|front|] == RepairSteps(repr, allowed, front);
    }
  }

  /**
   Repair preserves acceptance: data the validator accepts is still accepted, with the same assumptions and,
   step for step, the same type, params, references and approval flag, and a visible title.
   */
  lemma RepairPreservesAcceptance(repr: Json -> string, allowed: set<string>, data: Json)
    requires ValidatePlan(allowed, data).Ok?
    ensures var plan, fixed := ValidatePlan(allowed, data), ValidatePlan(allowed, RepairPlan(repr, allowed, data));
            && fixed.Ok? && fixed.value.assumptions == plan.value.assumptions
            && |fixed.value.steps| == |plan.value.steps|
            && forall k :: 0 <= k < |plan.value.steps| ==> SameWork(plan.value.steps[k], fixed.value.steps[k])
  {
    var items := data.fields["steps"].items;
    AcceptedStepsStay(repr, allowed, items);
    var assumptions := Get(data.fields, "assumptions");
    if assumptions.JArr? {
      StringsStay(assumptions.items);
    }
  }

  /** Too many steps are never cut: a plan whose allowlisted steps exceed the limit is refused as it was. */
  lemma LongPlansStayRefused(repr: Json -> string, allowed: set<string>, data: Json)
    requires data.JObj? && Get(data.fields, "steps").JArr?
    requires |Kept(allowed, Get(data.fields, "steps").items)| > MAX_STEPS
    ensures ValidatePlan(allowed, RepairPlan(repr, allowed, data)).Bad?
  {
    RepairKeepsAllowlisted(repr, allowed, Get(data.fields, "steps").items);
  }
}
