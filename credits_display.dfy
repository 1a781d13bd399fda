/** The credit counter of components/ui/credits-display.tsx: the count from the credit check, its
    label and colour, and the low-credit warnings. */
module CreditsDisplay {
  import opened Wrappers
  import opened Text

  datatype Tone = Destructive | Primary
  datatype Warning = OneCreditLeft | NoCreditsLeft

  /** What the counter shows. */
  datatype Panel = Panel(text: string, tone: Tone, warning: Option<Warning>)

  /** `credits === 0 ? "No credits" : `${credits} credit${credits === 1 ? "" : "s"}``. */
  function Label(credits: int): string
  {
    if credits == 0 then "No credits"
    else IntToString(credits) + " credit" + (if credits == 1 then "" else "s")
  }

  /** Nothing until a count is known; then the label, the tone, and a warning for one or no credit
      left when warnings are on. */
  function Render(credits: Option<int>, showWarning: bool): (p: Option<Panel>)
    ensures p.None? <==> credits.None?
    ensures p.Some? ==> (p.value.tone == Destructive <==> credits.value == 0)
    ensures p.Some? ==> (p.value.warning.Some? <==> showWarning && 0 <= credits.value <= 1)
    ensures p.Some? && p.value.warning.Some? ==> (p.value.warning.value == NoCreditsLeft <==> credits.value == 0)
    ensures p.Some? ==> p.value.text == Label(credits.value)
    ensures p.Some? && credits.value == 0 ==> p.value.text == "No credits"
  {
    match credits
    case None => None
    case Some(n) =>
      Some(Panel(Label(n),
                 if n == 0 then Destructive else Primary,
                 if showWarning && n == 1 then Some(OneCreditLeft)
                 else if showWarning && n == 0 then Some(NoCreditsLeft)
                 else None))
  }

  /** A non-zero count is written out in the label, followed by " credit", plural unless it is
      one; the number reads back as the count. */
  lemma LabelStatesCount(credits: int)
    requires credits != 0
    ensures Split(Label(credits), ' ')[0] == IntToString(credits)
    ensures |Split(Label(credits), ' ')| == 2
    ensures Split(Label(credits), ' ')[1] == if credits == 1 then "credit" else "credits"
  {
    var number := IntToString(credits);
    var word := if credits == 1 then "credit" else "credits";
    IntToStringExcludes(credits, ' ');
    assert Label(credits) == Join([number, word], ' ') by {
      assert [number, word][1..] == [word];
    }
    SplitJoin([number, word], ' ');
  }

  /** Different counts never share a label. */
  lemma LabelInjective(m: int, n: int)
    requires Label(m) == Label(n)
    ensures m == n
  {
    if m != 0 && n != 0 {
      LabelStatesCount(m);
      LabelStatesCount(n);
      IntToStringInjective(m, n);
    } else {
      IntToStringSign(m);
      IntToStringSign(n);
      LeadingSign(m);
      LeadingSign(n);
    }
  }

  /** A label starts with the rendered count, or with "No" for zero. */
  lemma LeadingSign(i: int)
    ensures |Label(i)| > 0
    ensures i != 0 ==> Label(i)[0] == IntToString(i)[0]
    ensures i == 0 ==> Label(i)[0] == 'N'
  {
    IntToStringSign(i);
  }

  /** The component's state: the count, unknown until the credit check succeeds. */
  class Counter {
    var credits: Option<int>

    constructor ()
      ensures credits == None
    {
      credits := None;
    }

    /** `fetchCredits`: a successful check stores its count; a failed one changes nothing. */
    method Fetched(result: ActionState<int>)
      modifies this
      ensures result.ActionOk? ==> credits == Some(result.data)
      ensures result.ActionError? ==> credits == old(credits)
    {
      if result.ActionOk? {
        credits := Some(result.data);
      }
    }
  }
}
