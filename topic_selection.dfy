/** The topic form (src/screens/TopicSelectionScreen.tsx): the topic text and
    the chosen side are component state, updated by the text field and the
    two side buttons; the start button navigates to the debate with the
    trimmed topic when the form is valid. */
module TopicSelection {
  import opened Types
  import opened Strings

  /** `isFormValid`: `topic.trim().length > 0 && selectedSide !== null`. */
  predicate FormValid(topic: string, selectedSide: Option<DebateSide>) {
    |Trim(topic)| > 0 && selectedSide.Some?
  }

  /** The guard of `handleStartDebate`: `topic.trim() && selectedSide`, where
      a string is truthy when non-empty and both sides are non-empty strings. */
  predicate StartGuard(topic: string, selectedSide: Option<DebateSide>) {
    Trim(topic) != "" && selectedSide.Some? && SideText(selectedSide.value) != ""
  }

  /** The start handler and the disabled state of the button test the same
      thing, so the button is enabled exactly when pressing it navigates. */
  lemma GuardIsValidity(topic: string, selectedSide: Option<DebateSide>)
    ensures StartGuard(topic, selectedSide) <==> FormValid(topic, selectedSide)
  {
    if selectedSide.Some? {
      assert SideText(selectedSide.value)[0] == 'f' || SideText(selectedSide.value)[0] == 'a';
    }
  }

  /** The route parameters `handleStartDebate` navigates with, if any. */
  function StartParams(topic: string, selectedSide: Option<DebateSide>): (r: Option<DebateParams>)
    ensures r.Some? <==> FormValid(topic, selectedSide)
    ensures r.Some? ==> r.value.topic == Trim(topic) && Some(r.value.userSide) == selectedSide
    ensures r.Some? ==> r.value.topic != "" && Trim(r.value.topic) == r.value.topic
  {
    GuardIsValidity(topic, selectedSide);
    if StartGuard(topic, selectedSide) then
      TrimIdempotent(topic);
      Some(DebateParams(Trim(topic), selectedSide.value))
    else None
  }

  const HintHead := "AI will argue "
  const HintTail := " the topic"

  /** The hint under the side buttons: shown once a side is selected, naming
      the other side. */
  function Hint(selectedSide: Option<DebateSide>): (r: Option<string>)
    ensures r.Some? <==> selectedSide.Some?
    ensures r.Some? ==> OccursAt(r.value, SideText(Opposite(selectedSide.value)), |HintHead|)
  {
    if selectedSide.None? then None
    else
      var other := SideText(Opposite(selectedSide.value));
      var text := HintHead + other + HintTail;
      assert text[|HintHead|..|HintHead| + |other|] == other;
      Some(text)
  }

  /** The component's two pieces of state. */
  class TopicSelectionScreen {
    var topic: string
    var selectedSide: Option<DebateSide>

    /** `useState('')` and `useState(null)`. */
    constructor()
      ensures topic == "" && selectedSide.None?
    {
      topic := "";
      selectedSide := None;
    }

    /** `onChangeText={setTopic}`. */
    method SetTopic(text: string)
      modifies this
      ensures topic == text && selectedSide == old(selectedSide)
    {
      topic := text;
    }

    /** A side button's `onPress`: the new choice replaces the old one, so one
        side at most is ever selected. */
    method SelectSide(side: DebateSide)
      modifies this
      ensures selectedSide == Some(side) && topic == old(topic)
    {
      selectedSide := Some(side);
    }

    /** `isFormValid` for the current state. */
    function IsFormValid(): (b: bool)
      reads this
      ensures b <==> StartGuard(topic, selectedSide)
    {
      GuardIsValidity(topic, selectedSide);
      FormValid(topic, selectedSide)
    }

    /** `handleStartDebate`: the route parameters it navigates with, or `None`
        when the guard fails and nothing happens. The form is left as it is. */
    method HandleStartDebate() returns (nav: Option<DebateParams>)
      ensures nav.Some? <==> IsFormValid()
      ensures nav.Some? ==> nav.value.topic == Trim(topic) && Some(nav.value.userSide) == selectedSide
      ensures nav == StartParams(topic, selectedSide)
    {
      if Trim(topic) != "" && selectedSide.Some? {
        nav := Some(DebateParams(Trim(topic), selectedSide.value));
      } else {
        nav := None;
      }
    }
  }
}
