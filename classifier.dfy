/** `classify_route`: the road segment of a route leg, from the substrings of its
    turn-by-turn text. */
module Classifier {
  import opened Common
  import opened Text
  import opened Directions

  /** The three segment ids the speed estimator was trained on. */
  const SegmentGtRoad: string := "segment_gt_road"
  const SegmentIndirapuram: string := "segment_indirapuram"
  const SegmentNh9: string := "segment_nh9"

  predicate IsSegmentId(id: string)
  {
    id == SegmentGtRoad || id == SegmentIndirapuram || id == SegmentNh9
  }

  /** The first signal, checked before any other: national highway 9 or the expressway. */
  predicate NamesHighway(text: string)
  {
    Contains(text, "NH") || Contains(text, "Expressway")
  }

  /** The second signal: the Grand Trunk road. */
  predicate NamesGtRoad(text: string)
  {
    Contains(text, "GT Rd") || Contains(text, "Grand Trunk")
  }

  /** The decision on the joined instruction text: highway first, GT road
      second, Indirapuram otherwise. */
  function ClassifyText(text: string): (id: string)
    ensures IsSegmentId(id)
    ensures id == SegmentNh9 <==> NamesHighway(text)
    ensures id == SegmentGtRoad <==> !NamesHighway(text) && NamesGtRoad(text)
    ensures id == SegmentIndirapuram <==> !NamesHighway(text) && !NamesGtRoad(text)
  {
    if NamesHighway(text) then SegmentNh9
    else if NamesGtRoad(text) then SegmentGtRoad
    else SegmentIndirapuram
  }

  /** `[step['html_instructions'] for step in steps]`, or `None` when some step
      has no instructions (the `KeyError` the classifier catches). */
  function Instructions(steps: seq<Step>): (texts: Option<seq<string>>)
    ensures texts.Some? <==> forall i :: 0 <= i < |steps| ==> steps[i].htmlInstructions.Some?
    ensures texts.Some? ==> |texts.value| == |steps|
    ensures texts.Some? ==> forall i :: 0 <= i < |steps| ==> texts.value[i] == steps[i].htmlInstructions.value
  {
    if |steps| == 0 then Some([])
    else
      match (steps[0].htmlInstructions, Instructions(steps[1..]))
      case (Some(first), Some(rest)) => Some([first] + rest)
      case _ => None
  }

  /** `classify_route(route_leg)`. It never fails: a leg without `steps`, or with a
      step lacking `html_instructions`, is Indirapuram whatever the other steps say;
      otherwise the instructions are joined with one space and classified. */
  function ClassifyRoute(leg: Leg): (id: string)
    ensures IsSegmentId(id)
    ensures leg.steps.None? ==> id == SegmentIndirapuram
    ensures leg.steps.Some? && (exists i :: 0 <= i < |leg.steps.value| && leg.steps.value[i].htmlInstructions.None?)
            ==> id == SegmentIndirapuram
    ensures leg.steps.Some? && Instructions(leg.steps.value).Some?
            ==> id == ClassifyText(Join(Instructions(leg.steps.value).value, " "))
  {
    match leg.steps
    case None => SegmentIndirapuram
    case Some(steps) =>
      match Instructions(steps)
      case None => SegmentIndirapuram
      case Some(texts) => ClassifyText(Join(texts, " "))
  }

  /** A leg of one step is classified by that step's text alone. */
  lemma OneStepLeg(leg: Leg, text: string)
    requires leg.steps == Some([Step(Some(text))])
    ensures ClassifyRoute(leg) == ClassifyText(text)
  {
    var steps := [Step(Some(text))];
    assert steps[1..] == [];
    assert Instructions(steps[1..]) == Some([]);
    assert [text] + [] == [text];
  }

  /** A leg whose instructions are all present and one of whose steps names the
      highway is NH9, even if other steps name the GT road. */
  lemma StepNamingHighwayWins(leg: Leg, k: nat)
    requires leg.steps.Some? && k < |leg.steps.value|
    requires forall i :: 0 <= i < |leg.steps.value| ==> leg.steps.value[i].htmlInstructions.Some?
    requires NamesHighway(leg.steps.value[k].htmlInstructions.value)
    ensures ClassifyRoute(leg) == SegmentNh9
  {
    var texts := Instructions(leg.steps.value).value;
    if Contains(texts[k], "NH") {
      JoinContainsPart(texts, " ", k, "NH");
    } else {
      JoinContainsPart(texts, " ", k, "Expressway");
    }
  }

  /** Likewise a step naming the GT road makes the leg GT road, unless the joined
      text names the highway somewhere. */
  lemma StepNamingGtRoadWins(leg: Leg, k: nat)
    requires leg.steps.Some? && k < |leg.steps.value|
    requires forall i :: 0 <= i < |leg.steps.value| ==> leg.steps.value[i].htmlInstructions.Some?
    requires NamesGtRoad(leg.steps.value[k].htmlInstructions.value)
    requires !NamesHighway(Join(Instructions(leg.steps.value).value, " "))
    ensures ClassifyRoute(leg) == SegmentGtRoad
  {
    var texts := Instructions(leg.steps.value).value;
    if Contains(texts[k], "GT Rd") {
      JoinContainsPart(texts, " ", k, "GT Rd");
    } else {
      JoinContainsPart(texts, " ", k, "Grand Trunk");
    }
  }

  /** The join can create a signal no single step contains: steps "GT" and "Rd"
      join to "GT Rd", so the leg is GT road although neither step names it. */
  lemma MatchSpansTwoSteps()
    ensures !NamesGtRoad("GT") && !NamesGtRoad("Rd")
    ensures ClassifyRoute(Leg(Some([Step(Some("GT")), Step(Some("Rd"))]), None, None, None, None, None)) == SegmentGtRoad
  {
    var texts := Instructions([Step(Some("GT")), Step(Some("Rd"))]).value;
    assert texts == ["GT", "Rd"];
    assert Join(texts, " ") == "GT Rd";
    assert Contains("GT Rd", "GT Rd");
    MissingFirstCharacter("GT Rd", "NH");
    MissingFirstCharacter("GT Rd", "Expressway");
  }
}
