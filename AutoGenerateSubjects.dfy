// The subject auto-generation hook of apps/web/src/hooks/useAutoGenerateSubjects.ts:
// which school types may generate, the label shown, the confirm modal, the request
// guard and the message chosen from the server's counts. The mutation's outcome
// is a parameter and the request is recorded.

module AutoGenerateSubjects {
  import opened Wrappers
  import opened Text
  import opened SchoolKinds

  /** Only primary and secondary schools have standard subjects to generate. */
  predicate CanAutoGenerate(currentType: Option<SchoolType>) {
    currentType == Some(Primary) || currentType == Some(Secondary)
  }

  /** `schoolTypeLabel`: the two generating types have a readable label, any other
      type shows its own name, and no type shows 'School'. */
  function SchoolTypeLabel(currentType: Option<SchoolType>): (lbl: string)
    ensures currentType == Some(Primary) ==> lbl == "Primary School"
    ensures currentType == Some(Secondary) ==> lbl == "Secondary School"
    ensures currentType == Some(Tertiary) ==> lbl == currentType.value.Name()
    ensures currentType.None? ==> lbl == "School"
  {
    match currentType
    case Some(Primary) => "Primary School"
    case Some(Secondary) => "Secondary School"
    case Some(t) => t.Name()
    case None => "School"
  }

  /** The success toast for `{created, skipped}`. */
  function ResultMessage(created: int, skipped: int): (m: string)
    ensures created > 0 ==> (m == "Created " + IntToString(created) + " subjects" +
      (if skipped > 0 then ", " + IntToString(skipped) + " already existed" else ""))
    ensures created <= 0 && skipped > 0 ==> m == "All " + IntToString(skipped) + " standard subjects already exist"
    ensures created <= 0 && skipped <= 0 ==> m == "No subjects to generate"
  {
    if created > 0 then
      "Created " + IntToString(created) + " subjects" + (if skipped > 0 then ", " + IntToString(skipped) + " already existed" else "")
    else if skipped > 0 then "All " + IntToString(skipped) + " standard subjects already exist"
    else "No subjects to generate"
  }

  /** The three kinds of message start differently, so the message tells which case
      the counts fell into. */
  lemma {:induction false} ResultMessageCase(created: int, skipped: int)
    ensures created > 0 <==> |ResultMessage(created, skipped)| >= 8 && ResultMessage(created, skipped)[..8] == "Created "
    ensures created <= 0 && skipped > 0 <==> |ResultMessage(created, skipped)| >= 4 && ResultMessage(created, skipped)[..4] == "All "
  {
    var m := ResultMessage(created, skipped);
    if created > 0 {
      assert m[..8] == "Created ";
      assert m[0] == 'C';
    } else if skipped > 0 {
      assert m[..4] == "All ";
      assert m[0] != 'C';
    } else {
      assert m == "No subjects to generate";
      assert m[0] != 'C' && m[0] != 'A';
    }
  }

  datatype Toast = SuccessToast(text: string) | ErrorToast(text: string)

  datatype GenerateRequest = GenerateRequest(schoolId: string, schoolType: SchoolType)

  /** The mutation's outcome: the server's counts, or a failure with its optional message. */
  datatype GenerateReply = Generated(created: int, skipped: int) | GenerateFailed(message: Option<string>)

  const NotAllowedMessage := "Auto-generate is only available for Primary and Secondary schools"
  const GuardMessage := "Unable to generate subjects. Please try again."
  const DefaultFailure := "Failed to generate subjects. Please try again."

  class AutoGenerator {
    var showConfirmModal: bool
    var toasts: seq<Toast>
    var requests: seq<GenerateRequest>

    constructor ()
      ensures !showConfirmModal && toasts == [] && requests == []
    {
      showConfirmModal := false;
      toasts := [];
      requests := [];
    }

    /** Opens the modal when generation is allowed; otherwise only complains. */
    method OpenConfirmModal(currentType: Option<SchoolType>)
      modifies this
      ensures CanAutoGenerate(currentType) ==> showConfirmModal && toasts == old(toasts)
      ensures !CanAutoGenerate(currentType) ==>
        showConfirmModal == old(showConfirmModal) && toasts == old(toasts) + [ErrorToast(NotAllowedMessage)]
      ensures requests == old(requests)
    {
      if !CanAutoGenerate(currentType) {
        toasts := toasts + [ErrorToast(NotAllowedMessage)];
        return;
      }
      showConfirmModal := true;
    }

    method CloseConfirmModal()
      modifies this
      ensures !showConfirmModal && toasts == old(toasts) && requests == old(requests)
    {
      showConfirmModal := false;
    }

    /** `handleAutoGenerate`: without a school id, a type or permission nothing is
        sent; otherwise the request goes out and the modal closes only on success. */
    method HandleAutoGenerate(schoolId: Option<string>, currentType: Option<SchoolType>, reply: GenerateReply)
      modifies this
      ensures !(Truthy(schoolId) && CanAutoGenerate(currentType)) ==>
        requests == old(requests) && toasts == old(toasts) + [ErrorToast(GuardMessage)]
        && showConfirmModal == old(showConfirmModal)
      ensures Truthy(schoolId) && CanAutoGenerate(currentType) ==>
        requests == old(requests) + [GenerateRequest(schoolId.value, currentType.value)]
      ensures Truthy(schoolId) && CanAutoGenerate(currentType) && reply.Generated? ==>
        toasts == old(toasts) + [SuccessToast(ResultMessage(reply.created, reply.skipped))] && !showConfirmModal
      ensures Truthy(schoolId) && CanAutoGenerate(currentType) && reply.GenerateFailed? ==>
        toasts == old(toasts) + [ErrorToast(OrElse(reply.message, DefaultFailure))]
        && showConfirmModal == old(showConfirmModal)
    {
      if !Truthy(schoolId) || currentType.None? || !CanAutoGenerate(currentType) {
        toasts := toasts + [ErrorToast(GuardMessage)];
        return;
      }
      requests := requests + [GenerateRequest(schoolId.value, currentType.value)];
      match reply
      case Generated(created, skipped) =>
        toasts := toasts + [SuccessToast(ResultMessage(created, skipped))];
        showConfirmModal := false;
      case GenerateFailed(message) =>
        toasts := toasts + [ErrorToast(OrElse(message, DefaultFailure))];
    }
  }
}
