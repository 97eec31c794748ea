/** One multiple-choice sample of a benchmark and the prompt sent for it
    (src/llm_eval/benchmarks/base.py). */
module Benchmarks {
  import opened Text

  datatype Sample = Sample(
    sampleId: string,
    question: string,
    choices: seq<string>,
    answerIndex: int,
    category: string)

  // The two fixed lines, written in two pieces each so that facts about
  // their characters stay cheap to prove.
  const Instruction: string := "Answer the following " + "multiple-choice question."
  const ReplyLine: string := "Reply with only the option " + "letter (A, B, C, D, ...)."

  /** Option labels are `chr(65 + i)`; below this many choices every label is
      a Unicode scalar value that Dafny's `char` can hold. */
  const MaxChoices: nat := 0xD800 - 65

  function Label(i: nat): (c: char)
    requires i < MaxChoices
    ensures c as int == 65 + i
  {
    (65 + i) as char
  }

  function OptionLine(i: nat, choice: string): string
    requires i < MaxChoices
  {
    [Label(i)] + ". " + choice
  }

  /** One line per choice, labelled in choice order. */
  function OptionLines(choices: seq<string>): (lines: seq<string>)
    requires |choices| <= MaxChoices
    ensures |lines| == |choices|
    ensures forall i :: 0 <= i < |choices| ==> lines[i] == OptionLine(i, choices[i])
  {
    seq(|choices|, i requires 0 <= i < |choices| => OptionLine(i, choices[i]))
  }

  /** The lines of the prompt, in order. */
  function PromptLines(s: Sample): seq<string>
    requires |s.choices| <= MaxChoices
  {
    ["Category: " + s.category, Instruction, s.question] + OptionLines(s.choices) + [ReplyLine]
  }

  /** `BenchmarkSample.prompt()`: the prompt lines joined by newlines. */
  function Prompt(s: Sample): string
    requires |s.choices| <= MaxChoices
  {
    Join("\n", PromptLines(s))
  }

  lemma FixedLinesOneLine()
    ensures '\n' !in "Category: " && '\n' !in Instruction && '\n' !in ReplyLine
  {
  }

  /** No prompt line holds a newline when no field of the sample does. */
  lemma PromptLinesOneLineEach(s: Sample, k: nat)
    requires |s.choices| <= MaxChoices
    requires '\n' !in s.category && '\n' !in s.question
    requires forall i :: 0 <= i < |s.choices| ==> '\n' !in s.choices[i]
    requires k < |s.choices| + 4
    ensures '\n' !in PromptLines(s)[k]
  {
    var head := ["Category: " + s.category, Instruction, s.question];
    var options := OptionLines(s.choices);
    assert PromptLines(s) == head + options + [ReplyLine];
    FixedLinesOneLine();
    if k < 3 {
      assert PromptLines(s)[k] == head[k];
    } else if k < 3 + |s.choices| {
      var i := k - 3;
      assert PromptLines(s)[k] == options[i];
      assert options[i] == [Label(i)] + ". " + s.choices[i];
    } else {
      assert PromptLines(s)[k] == ReplyLine;
    }
  }

  /** Reading the prompt back line by line: when no field holds a newline,
      the prompt has exactly `4 + |choices|` lines, the header, instruction
      and question first, then the option line of every choice in order,
      then the reply line. */
  lemma PromptLineByLine(s: Sample)
    requires |s.choices| <= MaxChoices
    requires '\n' !in s.category && '\n' !in s.question
    requires forall i :: 0 <= i < |s.choices| ==> '\n' !in s.choices[i]
    ensures var lines := Split(Prompt(s), '\n');
      && |lines| == |s.choices| + 4
      && lines[0] == "Category: " + s.category
      && lines[1] == Instruction
      && lines[2] == s.question
      && (forall i :: 0 <= i < |s.choices| ==> lines[3 + i] == [Label(i)] + ". " + s.choices[i])
      && lines[|s.choices| + 3] == ReplyLine
  {
    var parts := PromptLines(s);
    forall k | 0 <= k < |parts| ensures '\n' !in parts[k] {
      PromptLinesOneLineEach(s, k);
    }
    SplitJoin(parts, '\n');
    assert Split(Prompt(s), '\n') == parts;
  }

  /** With at least two choices the prompt shows the labels `A.` and `B.`. */
  lemma PromptShowsFirstLabels(s: Sample)
    requires 2 <= |s.choices| <= MaxChoices
    ensures IsSubstring("A.", Prompt(s)) && IsSubstring("B.", Prompt(s))
  {
    var parts := PromptLines(s);
    assert parts[3] == OptionLine(0, s.choices[0]);
    assert parts[4] == OptionLine(1, s.choices[1]);
    assert SubstringAt("A.", parts[3], 0);
    assert SubstringAt("B.", parts[4], 0);
    JoinContainsPart("\n", parts, 3);
    JoinContainsPart("\n", parts, 4);
    SubstringTransitive("A.", parts[3], Prompt(s));
    SubstringTransitive("B.", parts[4], Prompt(s));
  }
}
