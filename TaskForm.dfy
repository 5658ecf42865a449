/**
 * The "new quest" form: a closed/open switch and the fields being entered.
 * Submitting hands the fields to the page's task registration when the title
 * is not blank; the motivation button hands the title to the guidance request
 * under the same guard.
 */
module TaskForm {
  import opened Wrappers
  import opened Text
  import Engine

  /** The difficulty choices the form offers. */
  datatype Priority = Low | Medium | High | Critical

  /** The value the form's select stores for a choice. */
  function PriorityKey(p: Priority): string {
    match p
    case Low => "low"
    case Medium => "medium"
    case High => "high"
    case Critical => "critical"
  }

  /** The fields being entered. */
  datatype Draft = Draft(title: string, description: string, priority: Priority, category: string)

  /** The fields a fresh or just-submitted form shows. */
  const EmptyDraft: Draft := Draft("", "", Medium, "General")

  /** None of the form's priority values is a key of the page's reward table,
      which is keyed by rank letters: a task registered through the form gets
      no reward from the table. */
  lemma FormPrioritiesMissRewardTable(p: Priority)
    ensures Engine.RewardForKey(PriorityKey(p)).None?
    ensures forall r: Engine.Rank :: Engine.RankKey(r) != PriorityKey(p)
  {
    forall r: Engine.Rank ensures Engine.RankKey(r) != PriorityKey(p) {
      assert |Engine.RankKey(r)| == 1 < |PriorityKey(p)|;
    }
  }

  class Form {
    var isOpen: bool
    var draft: Draft

    /** Closed, with the default fields. */
    constructor ()
      ensures !isOpen && draft == EmptyDraft
    {
      isOpen := false;
      draft := EmptyDraft;
    }

    /** The "Add New Quest" button opens the form; the fields stay. */
    method Open()
      modifies this
      ensures isOpen && draft == old(draft)
    {
      isOpen := true;
    }

    /** Typing in the title box. */
    method EditTitle(title: string)
      modifies this
      ensures draft == old(draft).(title := title) && isOpen == old(isOpen)
    {
      draft := draft.(title := title);
    }

    /** Typing in the description box. */
    method EditDescription(description: string)
      modifies this
      ensures draft == old(draft).(description := description) && isOpen == old(isOpen)
    {
      draft := draft.(description := description);
    }

    /** Choosing a difficulty. */
    method ChoosePriority(priority: Priority)
      modifies this
      ensures draft == old(draft).(priority := priority) && isOpen == old(isOpen)
    {
      draft := draft.(priority := priority);
    }

    /** Choosing a category. */
    method ChooseCategory(category: string)
      modifies this
      ensures draft == old(draft).(category := category) && isOpen == old(isOpen)
    {
      draft := draft.(category := category);
    }

    /** `handleSubmit`: with a blank title nothing happens; otherwise the
        fields as entered are handed on (`added`), the form is reset to the
        defaults and closed. */
    method Submit() returns (added: Option<Draft>)
      modifies this
      ensures IsBlank(old(draft).title) ==>
        added == None && draft == old(draft) && isOpen == old(isOpen)
      ensures !IsBlank(old(draft).title) ==>
        added == Some(old(draft)) && draft == EmptyDraft && !isOpen
    {
      TrimEmptyIffBlank(draft.title);
      if Trim(draft.title) != [] {
        added := Some(draft);
        draft := EmptyDraft;
        isOpen := false;
      } else {
        added := None;
      }
    }

    /** `handleAIMotivation`: the title, untrimmed, is handed on exactly when
        it is not blank; the form is not changed. */
    method RequestMotivation() returns (request: Option<string>)
      ensures request.Some? <==> !IsBlank(draft.title)
      ensures request.Some? ==> request.value == draft.title
    {
      TrimEmptyIffBlank(draft.title);
      if Trim(draft.title) != [] {
        request := Some(draft.title);
      } else {
        request := None;
      }
    }

    /** Cancel closes the form and keeps what was entered. */
    method Cancel()
      modifies this
      ensures !isOpen && draft == old(draft)
    {
      isOpen := false;
    }
  }
}
