/**
 * The user prompt sent to the language model for one focus chunk: a fixed
 * template whose slots are filled from a context bundle.
 */
module Prompts {
  import opened Text

  /**
   * The parts of a context bundle the prompt reads. The slices themselves
   * are opaque; only how many there are of each kind matters. An absent
   * `section_path` metadata key is the empty path.
   */
  datatype ContextBundle<Slice> = ContextBundle(
    focusContent: string,
    sectionPath: seq<string>,
    manualNeighbors: seq<Slice>,
    regulationSlices: seq<Slice>,
    guidanceSlices: seq<Slice>,
    evidenceSlices: seq<Slice>,
    renderedText: string)

  const HeadingSeparator := " > "
  const NoHeading := "N/A"
  const NoContext := "None supplied"

  /** Number of slots in the template. */
  const SlotCount := 7

  /**
   * The fixed prose of the template, as the fragments around the slots: the
   * text before the heading, before the content, before each of the four
   * counts, before the context details, and after them.
   */
  datatype Template = Template(fragments: seq<string>) {
    predicate Valid() {
      |fragments| == SlotCount + 1
    }
  }

  /** Python's `text or fallback` on strings. */
  function OrElse(text: string, fallback: string): (r: string)
    ensures fallback != "" ==> r != ""
  {
    if text == "" then fallback else text
  }

  function Heading<S>(bundle: ContextBundle<S>): string {
    OrElse(Join(bundle.sectionPath, HeadingSeparator), NoHeading)
  }

  /**
   * The slot values, in template order: heading, focus content, the four
   * counts, and the context details.
   */
  function Slots<S>(bundle: ContextBundle<S>): (slots: seq<string>)
    ensures |slots| == SlotCount
  {
    [ Heading(bundle),
      Strip(bundle.focusContent),
      NatToDecimal(|bundle.manualNeighbors|),
      NatToDecimal(|bundle.regulationSlices|),
      NatToDecimal(|bundle.guidanceSlices|),
      NatToDecimal(|bundle.evidenceSlices|),
      OrElse(bundle.renderedText, NoContext) ]
  }

  /** The fragments with the values between them: f0 v0 f1 v1 ... fn. */
  function Interleave(fragments: seq<string>, values: seq<string>): string
    requires |fragments| == |values| + 1
  {
    if values == [] then fragments[0]
    else fragments[0] + values[0] + Interleave(fragments[1..], values[1..])
  }

  /** Where the `k`-th value starts in `Interleave(fragments, values)`. */
  function Offset(fragments: seq<string>, values: seq<string>, k: nat): nat
    requires |fragments| == |values| + 1 && k < |values|
  {
    |fragments[0]| + if k == 0 then 0 else |values[0]| + Offset(fragments[1..], values[1..], k - 1)
  }

  /** Each value can be read back from the interleaved text at its offset. */
  lemma {:induction false} InterleaveAt(fragments: seq<string>, values: seq<string>, k: nat)
    requires |fragments| == |values| + 1 && k < |values|
    ensures var text := Interleave(fragments, values);
      var at := Offset(fragments, values, k);
      at + |values[k]| <= |text| && text[at..at + |values[k]|] == values[k]
  {
    var text := Interleave(fragments, values);
    var rest := Interleave(fragments[1..], values[1..]);
    var head := fragments[0] + values[0];
    assert text == head + rest;
    if k > 0 {
      InterleaveAt(fragments[1..], values[1..], k - 1);
      var at := Offset(fragments[1..], values[1..], k - 1);
      assert text[|head| + at..|head| + at + |values[k]|] == rest[at..at + |values[k]|];
    }
  }

  /** The template text with its slots filled, before dedenting. */
  function Fill<S>(template: Template, bundle: ContextBundle<S>): string
    requires template.Valid()
  {
    Interleave(template.fragments, Slots(bundle))
  }

  /**
   * `build_user_prompt`: the filled template, dedented and stripped.
   * `dedent` stands for `textwrap.dedent`.
   */
  function BuildUserPrompt<S>(template: Template, bundle: ContextBundle<S>, dedent: string -> string)
    : (prompt: string)
    requires template.Valid()
    ensures Trimmed(prompt)
    ensures StrippedFrom(dedent(Fill(template, bundle)), prompt)
  {
    Strip(dedent(Fill(template, bundle)))
  }

  /** Stripping the prompt again changes nothing. */
  lemma PromptIsStripped<S>(template: Template, bundle: ContextBundle<S>, dedent: string -> string)
    requires template.Valid()
    ensures Strip(BuildUserPrompt(template, bundle, dedent)) == BuildUserPrompt(template, bundle, dedent)
  {
    StripIdempotent(dedent(Fill(template, bundle)));
  }

  /**
   * The heading slot is the section path joined with " > ", or "N/A" when
   * that join is empty: for no path or a single empty component.
   */
  lemma HeadingSlot<S>(bundle: ContextBundle<S>)
    ensures var path := bundle.sectionPath;
      && (|path| == 0 || (|path| == 1 && path[0] == "") ==> Slots(bundle)[0] == "N/A")
      && (!(|path| == 0 || (|path| == 1 && path[0] == "")) ==> Slots(bundle)[0] == Join(path, " > "))
      && Slots(bundle)[0] != ""
  {
    JoinEmpty(bundle.sectionPath, HeadingSeparator);
  }

  /** The focus slot is the focus content without its surrounding whitespace. */
  lemma FocusSlot<S>(bundle: ContextBundle<S>)
    ensures var content := Slots(bundle)[1];
      var text := bundle.focusContent;
      var lead := LeadingSpaces(text);
      && Trimmed(content)
      && lead + |content| <= |text|
      && content == text[lead..lead + |content|]
      && (forall k :: 0 <= k < lead ==> IsSpace(text[k]))
      && (forall k :: lead + |content| <= k < |text| ==> IsSpace(text[k]))
  {
    var text := bundle.focusContent;
    var lead := LeadingSpaces(text);
    var content := Strip(text);
    assert content == Slots(bundle)[1];
  }

  /** Each count slot reads back, as a decimal number, as the number of slices of its kind. */
  lemma CountSlots<S>(bundle: ContextBundle<S>)
    ensures var slots := Slots(bundle);
      && IsDecimal(slots[2]) && DecimalValue(slots[2]) == |bundle.manualNeighbors|
      && IsDecimal(slots[3]) && DecimalValue(slots[3]) == |bundle.regulationSlices|
      && IsDecimal(slots[4]) && DecimalValue(slots[4]) == |bundle.guidanceSlices|
      && IsDecimal(slots[5]) && DecimalValue(slots[5]) == |bundle.evidenceSlices|
  {
    DecimalRoundTrip(|bundle.manualNeighbors|);
    DecimalRoundTrip(|bundle.regulationSlices|);
    DecimalRoundTrip(|bundle.guidanceSlices|);
    DecimalRoundTrip(|bundle.evidenceSlices|);
  }

  /**
   * The filled template holds the rendered context right after the prose
   * before it, or "None supplied" there when the rendered context is empty.
   */
  lemma ContextSlot<S>(template: Template, bundle: ContextBundle<S>)
    requires template.Valid()
    ensures var text := Fill(template, bundle);
      var at := Offset(template.fragments, Slots(bundle), 6);
      && (bundle.renderedText != "" ==>
            at + |bundle.renderedText| <= |text| && text[at..at + |bundle.renderedText|] == bundle.renderedText)
      && (bundle.renderedText == "" ==>
            at + |NoContext| <= |text| && text[at..at + |NoContext|] == "None supplied")
  {
    SlotsInFill(template, bundle, 6);
  }

  /** Every slot value sits in the filled template right after the prose before it. */
  lemma SlotsInFill<S>(template: Template, bundle: ContextBundle<S>, k: nat)
    requires template.Valid() && k < SlotCount
    ensures var text := Fill(template, bundle);
      var at := Offset(template.fragments, Slots(bundle), k);
      var value := Slots(bundle)[k];
      at + |value| <= |text| && text[at..at + |value|] == value
  {
    InterleaveAt(template.fragments, Slots(bundle), k);
  }
}
