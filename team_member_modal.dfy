/** The dialog that adds or edits a team member (src/components/TeamMemberModal.tsx). */
module TeamMemberModal {
  import opened JsValues
  import opened Types
  import opened Text

  /** The five form fields; they are also the data sent to the store. */
  datatype MemberForm = MemberForm(name: string, status: MemberStatus, employeeId: string, email: string, role: string)

  /** `resetForm()` */
  const EmptyForm: MemberForm := MemberForm("", FullTime, "", "", "")

  /** The fields as a member fills them. */
  function FormOf(member: TeamMember): (f: MemberForm)
    ensures f.name == member.name && f.status == member.status && f.employeeId == member.employeeId
    ensures f.email == member.email && f.role == member.role
  {
    MemberForm(member.name, member.status, member.employeeId, member.email, member.role)
  }

  /** The call a submit makes to the store. */
  datatype MemberCall = Create(data: MemberForm) | Update(id: string, data: MemberForm)

  /** Every required field has a character other than white space. */
  predicate Complete(form: MemberForm) {
    !IsBlank(form.name) && !IsBlank(form.employeeId) && !IsBlank(form.email) && !IsBlank(form.role)
  }

  /**
   * What a submit asks of the store: nothing when a required field is blank, an update of the
   * member being edited, or else a create; the data is the untrimmed fields.
   */
  function CallFor(member: Option<TeamMember>, form: MemberForm): (r: Option<MemberCall>)
    ensures r.Some? <==> Complete(form)
    ensures r.Some? ==> r.value.data == form
    ensures r.Some? ==> (r.value.Update? <==> member.Some?)
    ensures r.Some? && member.Some? ==> r.value.id == member.value.id
  {
    if !Complete(form) then None
    else if member.Some? then Some(Update(member.value.id, form))
    else Some(Create(form))
  }

  /** A submit is refused exactly when one of the four text fields is white space only. */
  lemma CallNeedsVisibleFields(member: Option<TeamMember>, form: MemberForm)
    ensures CallFor(member, form).None? <==>
      (forall i :: 0 <= i < |form.name| ==> IsSpace(form.name[i]))
      || (forall i :: 0 <= i < |form.employeeId| ==> IsSpace(form.employeeId[i]))
      || (forall i :: 0 <= i < |form.email| ==> IsSpace(form.email[i]))
      || (forall i :: 0 <= i < |form.role| ==> IsSpace(form.role[i]))
  {
    BlankIffAllSpace(form.name);
    BlankIffAllSpace(form.employeeId);
    BlankIffAllSpace(form.email);
    BlankIffAllSpace(form.role);
  }

  /** Editing a member whose fields are filled in and submitting at once updates it with its own data. */
  lemma ResubmitUpdatesMember(member: TeamMember)
    requires Complete(FormOf(member))
    ensures CallFor(Some(member), FormOf(member)) == Some(Update(member.id, FormOf(member)))
  {
  }

  class TeamMemberModal {
    var member: Option<TeamMember>
    var open: bool
    var name: string
    var status: MemberStatus
    var employeeId: string
    var email: string
    var role: string
    var isSubmitting: bool

    function Form(): MemberForm
      reads this
    {
      MemberForm(name, status, employeeId, email, role)
    }

    constructor (member: Option<TeamMember>, open: bool)
      ensures this.member == member && this.open == open && !isSubmitting
      ensures Form() == (if member.Some? then FormOf(member.value) else EmptyForm)
    {
      this.member := member;
      this.open := open;
      if member.Some? {
        name, status, employeeId, email, role := member.value.name, member.value.status,
          member.value.employeeId, member.value.email, member.value.role;
      } else {
        name, status, employeeId, email, role := "", FullTime, "", "", "";
      }
      isSubmitting := false;
    }

    /** `resetForm()` */
    method ResetForm()
      modifies this
      ensures Form() == EmptyForm
      ensures member == old(member) && open == old(open) && isSubmitting == old(isSubmitting)
    {
      name := "";
      status := FullTime;
      employeeId := "";
      email := "";
      role := "";
    }

    /** The effect on a new `member` or `open` prop: copy the member's fields, or reset without one. */
    method Populate(newMember: Option<TeamMember>, newOpen: bool)
      modifies this
      ensures member == newMember && open == newOpen && isSubmitting == old(isSubmitting)
      ensures Form() == (if newMember.Some? then FormOf(newMember.value) else EmptyForm)
    {
      member := newMember;
      open := newOpen;
      if newMember.Some? {
        name := newMember.value.name;
        status := newMember.value.status;
        employeeId := newMember.value.employeeId;
        email := newMember.value.email;
        role := newMember.value.role;
      } else {
        ResetForm();
      }
    }

    method SetName(v: string)
      modifies this
      ensures Form() == old(Form()).(name := v)
      ensures member == old(member) && open == old(open) && isSubmitting == old(isSubmitting)
    {
      name := v;
    }

    method SetStatus(v: MemberStatus)
      modifies this
      ensures Form() == old(Form()).(status := v)
      ensures member == old(member) && open == old(open) && isSubmitting == old(isSubmitting)
    {
      status := v;
    }

    method SetEmployeeId(v: string)
      modifies this
      ensures Form() == old(Form()).(employeeId := v)
      ensures member == old(member) && open == old(open) && isSubmitting == old(isSubmitting)
    {
      employeeId := v;
    }

    method SetEmail(v: string)
      modifies this
      ensures Form() == old(Form()).(email := v)
      ensures member == old(member) && open == old(open) && isSubmitting == old(isSubmitting)
    {
      email := v;
    }

    method SetRole(v: string)
      modifies this
      ensures Form() == old(Form()).(role := v)
      ensures member == old(member) && open == old(open) && isSubmitting == old(isSubmitting)
    {
      role := v;
    }

    /**
     * `handleSubmit`: `isSubmitting` is raised for the duration and is false afterwards on every
     * path, the refused one included. A completed call reports success, closes the dialog and
     * resets the form; a failed call, like a refused submit, keeps the fields and the dialog.
     */
    method Submit(remoteOk: bool) returns (call: Option<MemberCall>, succeeded: bool)
      modifies this
      ensures call == CallFor(old(member), old(Form()))
      ensures !isSubmitting && member == old(member)
      ensures succeeded <==> call.Some? && remoteOk
      ensures succeeded ==> !open && Form() == EmptyForm
      ensures !succeeded ==> open == old(open) && Form() == old(Form())
    {
      isSubmitting := true;
      call := CallFor(member, Form());
      succeeded := false;
      if call.Some? && remoteOk {
        succeeded := true;
        open := false;
        ResetForm();
      }
      isSubmitting := false;
    }
  }
}
