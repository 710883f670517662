/** The team screen: the professional's form, its defaults, and the payload sent to the
    store, which leaves the password out when an edit does not change it. */
module Collaborators {
  import opened Values

  /** A professional as the team list holds it. */
  datatype Collaborator = Collaborator(
    id: int,
    name: string,
    specialty: string,
    commissionRate: Option<real>,
    email: Option<string>)

  /** The form's fields. */
  datatype CollaboratorForm = CollaboratorForm(
    name: string,
    specialty: string,
    commissionRate: real,
    email: string,
    password: string)

  const BlankCollaboratorForm := CollaboratorForm("", "", 50.0, "", "")

  /** The record sent to the store; `password` is absent when the key was deleted. */
  datatype Payload = Payload(
    name: string,
    specialty: string,
    commissionRate: real,
    email: string,
    password: Option<string>)

  /** `payload = { ...formData }`, less the password when it is empty on an edit. */
  function BuildPayload(form: CollaboratorForm, editingId: Option<int>): (p: Payload)
    ensures p.password.None? <==> form.password == "" && TruthyId(editingId)
    ensures p.password.Some? ==> p.password.value == form.password
    ensures p.name == form.name && p.specialty == form.specialty
    ensures p.commissionRate == form.commissionRate && p.email == form.email
  {
    var payload := Payload(form.name, form.specialty, form.commissionRate, form.email, Some(form.password));
    if form.password == "" && TruthyId(editingId) then payload.(password := None) else payload
  }

  /** A new professional's payload always carries the password key, even empty. */
  lemma CreateKeepsPassword(form: CollaboratorForm)
    ensures BuildPayload(form, None).password == Some(form.password)
  {
  }

  /** The password field is required only for a new professional. */
  predicate PasswordRequired(editingId: Option<int>)
  {
    !TruthyId(editingId)
  }

  /** An edit may leave the password empty; the payload then keeps the stored one. */
  lemma EditMayOmitPassword(form: CollaboratorForm, editingId: Option<int>)
    requires !PasswordRequired(editingId) && form.password == ""
    ensures BuildPayload(form, editingId).password.None?
  {
  }

  /** What the form's submission asks of the store. */
  datatype CollaboratorRequest = UpdateCollaborator(id: int, payload: Payload) | InsertCollaborator(payload: Payload)

  /** The team screen's form state. */
  class CollaboratorScreen {
    var showModal: bool
    var form: CollaboratorForm
    var editingId: Option<int>

    constructor ()
      ensures !showModal && form == BlankCollaboratorForm && editingId == None
    {
      showModal := false;
      form := BlankCollaboratorForm;
      editingId := None;
    }

    /** `openModal(collab)` edits it: a missing or zero rate shows as 50, a missing
        e-mail as empty text, and the password is never filled in. `openModal()` opens
        the blank form. */
    method OpenModal(collab: Option<Collaborator>)
      modifies this
      ensures showModal
      ensures collab.Some? ==>
        && editingId == Some(collab.value.id)
        && form == CollaboratorForm(collab.value.name, collab.value.specialty,
                                    RealOr(collab.value.commissionRate, 50.0), TextOr(collab.value.email), "")
      ensures collab.None? ==> editingId == None && form == BlankCollaboratorForm
      ensures form.password == "" && form.commissionRate != 0.0
    {
      showModal := true;
      match collab
      case Some(c) =>
        editingId := Some(c.id);
        form := CollaboratorForm(c.name, c.specialty, RealOr(c.commissionRate, 50.0), TextOr(c.email), "");
      case None =>
        editingId := None;
        form := BlankCollaboratorForm;
    }

    /** `closeModal`. */
    method CloseModal()
      modifies this
      ensures !showModal && editingId == None && form == BlankCollaboratorForm
    {
      showModal := false;
      editingId := None;
      form := BlankCollaboratorForm;
    }

    /** `handleSubmit`: the payload goes to an update of the edited professional or to
        an insert; the form closes when the store accepts it. */
    method Submit(ok: bool) returns (request: CollaboratorRequest)
      modifies this
      ensures TruthyId(old(editingId)) ==>
        request == UpdateCollaborator(old(editingId).value, BuildPayload(old(form), old(editingId)))
      ensures !TruthyId(old(editingId)) ==> request == InsertCollaborator(BuildPayload(old(form), old(editingId)))
      ensures ok ==> !showModal && editingId == None && form == BlankCollaboratorForm
      ensures !ok ==> showModal == old(showModal) && editingId == old(editingId) && form == old(form)
    {
      var payload := BuildPayload(form, editingId);
      if TruthyId(editingId) {
        request := UpdateCollaborator(editingId.value, payload);
      } else {
        request := InsertCollaborator(payload);
      }
      if ok {
        CloseModal();
      }
    }
  }
}
