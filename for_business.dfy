/**
 * The business onboarding wizard: a three-step form in a modal with a
 * requirement list that is toggled one entry at a time, an input handler
 * that writes one named field, a submit guard on the agreement checkbox and
 * the modal's open/close bookkeeping.
 */
module ForBusiness {
  import opened JsBuiltins

  /** The string-valued fields of the form, by their input `name`. */
  datatype TextField = CompanyName | Ntn | Email | Phone | Address | Industry | Volume | CargoType

  datatype BusinessForm = BusinessForm(
    companyName: string,
    ntn: string,
    email: string,
    phone: string,
    address: string,
    industry: string,
    volume: string,
    cargoType: string,
    requirements: seq<string>,
    agreed: bool)

  /** The form the wizard starts with. */
  const InitialForm: BusinessForm :=
    BusinessForm("", "", "", "", "", "", "1-10 Loads", "General", [], false)

  /** The requirement chips the second step offers. */
  const RequirementOptions: seq<string> :=
    ["Transit Insurance", "Tailgate Truck", "Labor Required", "Express Deliv.", "Multi-drop", "POD Return"]

  /** The value of a string field. */
  function Text(form: BusinessForm, k: TextField): string
  {
    match k
    case CompanyName => form.companyName
    case Ntn => form.ntn
    case Email => form.email
    case Phone => form.phone
    case Address => form.address
    case Industry => form.industry
    case Volume => form.volume
    case CargoType => form.cargoType
  }

  /** `{ ...formData, [k]: v }` for a string field: that field reads `v`, nothing else changes. */
  function WithText(form: BusinessForm, k: TextField, v: string): (r: BusinessForm)
    ensures Text(r, k) == v
    ensures forall j :: j != k ==> Text(r, j) == Text(form, j)
    ensures r.requirements == form.requirements && r.agreed == form.agreed
  {
    match k
    case CompanyName => form.(companyName := v)
    case Ntn => form.(ntn := v)
    case Email => form.(email := v)
    case Phone => form.(phone := v)
    case Address => form.(address := v)
    case Industry => form.(industry := v)
    case Volume => form.(volume := v)
    case CargoType => form.(cargoType := v)
  }

  /** The `name` of the input that fired: a string field or the agreement checkbox. */
  datatype FieldName = TextInput(field: TextField) | Agreed

  /** What the handler reads off the event target. */
  datatype InputEvent = InputEvent(name: FieldName, value: string, inputType: string, checked: bool)

  /**
   * handleInputChange: a checkbox contributes its checked flag, any other
   * input its value, and only the named field is written.  The rendered
   * form has exactly one checkbox, the one named `agreed`.
   */
  function ApplyInput(form: BusinessForm, e: InputEvent): (r: BusinessForm)
    requires e.name.Agreed? <==> e.inputType == "checkbox"
    ensures e.name.Agreed? ==> r.agreed == e.checked && forall k :: Text(r, k) == Text(form, k)
    ensures e.name.TextInput? ==> r.agreed == form.agreed && forall k :: Text(r, k) == (if k == e.name.field then e.value else Text(form, k))
    ensures r.requirements == form.requirements
  {
    if e.inputType == "checkbox" then form.(agreed := e.checked)
    else WithText(form, e.name.field, e.value)
  }

  /** `current.filter(r => r !== req)`: every occurrence of `req` dropped, the rest kept in order. */
  function Without(s: seq<string>, req: string): (r: seq<string>)
    ensures forall x :: x in r <==> x in s && x != req
    ensures forall x :: multiset(r)[x] == if x == req then 0 else multiset(s)[x]
    ensures IsSubsequence(r, s)
  {
    if s == [] then []
    else
      assert s == [s[0]] + s[1..];
      var rest := Without(s[1..], req);
      if s[0] != req then
        assert ([s[0]] + rest)[1..] == rest;
        [s[0]] + rest
      else
        rest
  }

  /** Without is the array filter with the inequality test. */
  lemma {:induction false} WithoutIsFilter(s: seq<string>, req: string)
    ensures Without(s, req) == Filter(s, r => r != req)
  {
    if s != [] {
      WithoutIsFilter(s[1..], req);
    }
  }

  /** Removing an element that does not occur changes nothing. */
  lemma {:induction false} WithoutAbsent(s: seq<string>, req: string)
    requires req !in s
    ensures Without(s, req) == s
  {
    if s != [] {
      WithoutAbsent(s[1..], req);
      assert s == [s[0]] + s[1..];
    }
  }

  /** Removal distributes over concatenation. */
  lemma {:induction false} WithoutAppend(a: seq<string>, b: seq<string>, req: string)
    ensures Without(a + b, req) == Without(a, req) + Without(b, req)
  {
    if a == [] {
      assert a + b == b;
    } else {
      assert (a + b)[0] == a[0];
      assert (a + b)[1..] == a[1..] + b;
      WithoutAppend(a[1..], b, req);
    }
  }

  /**
   * toggleRequirement's list: a present requirement is removed everywhere,
   * an absent one is appended; either way its membership flips and every
   * other requirement keeps its count and order.
   */
  function Toggled(s: seq<string>, req: string): (r: seq<string>)
    ensures req in r <==> req !in s
    ensures req in s ==> multiset(r)[req] == 0 && IsSubsequence(r, s)
    ensures req !in s ==> r == s + [req]
    ensures forall x :: x != req ==> multiset(r)[x] == multiset(s)[x]
    ensures forall x :: x != req ==> (x in r <==> x in s)
  {
    if req in s then Without(s, req) else s + [req]
  }

  /** Toggling an absent requirement twice gives back the original list. */
  lemma ToggleTwiceRestores(s: seq<string>, req: string)
    requires req !in s
    ensures Toggled(Toggled(s, req), req) == s
  {
    WithoutAppend(s, [req], req);
    WithoutAbsent(s, req);
    assert Without([req], req) == [];
  }

  /** No requirement listed twice. */
  ghost predicate NoDuplicates(s: seq<string>)
  {
    forall x :: multiset(s)[x] <= 1
  }

  /** Toggling keeps a duplicate-free list duplicate-free. */
  lemma TogglePreservesNoDuplicates(s: seq<string>, req: string)
    requires NoDuplicates(s)
    ensures NoDuplicates(Toggled(s, req))
  {
    var r := Toggled(s, req);
    forall x
      ensures multiset(r)[x] <= 1
    {
      if x == req && req !in s {
        assert multiset(r) == multiset(s) + multiset{req};
      }
    }
  }

  /** Toggling a present requirement twice drops every occurrence of it and appends it once at the end. */
  lemma ToggleTwiceMovesToEnd(s: seq<string>, req: string)
    requires req in s
    ensures Toggled(Toggled(s, req), req) == Without(s, req) + [req]
  {
  }

  /** The wizard's component state. */
  class BusinessWizard {
    var registerOpen: bool
    var step: int
    var submitting: bool
    var success: bool
    var form: BusinessForm
    /** The forms handed to storage, oldest first. */
    var saved: seq<BusinessForm>

    /** Step is one of the three pages. */
    ghost predicate StepValid()
      reads this`step
    {
      1 <= step <= 3
    }

    /** The requirement list holds offered chips only, none of them twice. */
    ghost predicate FormValid()
      reads this`form
    {
      NoDuplicates(form.requirements) && forall r :: r in form.requirements ==> r in RequirementOptions
    }

    ghost predicate Valid()
      reads this
    {
      StepValid() && FormValid()
    }

    constructor ()
      ensures Valid()
      ensures !registerOpen && step == 1 && !submitting && !success
      ensures form == InitialForm && saved == []
    {
      registerOpen, step, submitting, success := false, 1, false, false;
      form := InitialForm;
      saved := [];
    }

    /** "Request Access" opens the modal. */
    method OpenRegister()
      requires Valid()
      modifies this`registerOpen
      ensures Valid() && registerOpen
    {
      registerOpen := true;
    }

    /** handleInputChange. */
    method InputChange(e: InputEvent)
      requires Valid()
      requires e.name.Agreed? <==> e.inputType == "checkbox"
      modifies this`form
      ensures Valid()
      ensures form == ApplyInput(old(form), e)
    {
      form := ApplyInput(form, e);
    }

    /** A cargo-type button on the second step. */
    method SelectCargoType(cargoType: string)
      requires Valid()
      modifies this`form
      ensures Valid()
      ensures form == WithText(old(form), CargoType, cargoType)
    {
      form := WithText(form, CargoType, cargoType);
    }

    /** A volume button on the second step. */
    method SelectVolume(volume: string)
      requires Valid()
      modifies this`form
      ensures Valid()
      ensures form == WithText(old(form), Volume, volume)
    {
      form := WithText(form, Volume, volume);
    }

    /** toggleRequirement, called from a chip: only the requirement list changes. */
    method ToggleRequirement(req: string)
      requires Valid() && req in RequirementOptions
      modifies this`form
      ensures Valid()
      ensures form == old(form).(requirements := Toggled(old(form.requirements), req))
    {
      TogglePreservesNoDuplicates(form.requirements, req);
      form := form.(requirements := Toggled(form.requirements, req));
    }

    /** handleNext, offered on the first two steps. */
    method Next()
      requires Valid() && step < 3
      modifies this`step
      ensures Valid() && step == old(step) + 1
    {
      step := step + 1;
    }

    /** handleBack, offered on the last two steps. */
    method Back()
      requires Valid() && step > 1
      modifies this`step
      ensures Valid() && step == old(step) - 1
    {
      step := step - 1;
    }

    /**
     * handleSubmit: without the agreement nothing happens; with it the
     * wizard starts submitting and the form is handed to storage.
     */
    method Submit() returns (accepted: bool)
      requires Valid()
      modifies this`submitting, this`saved
      ensures Valid()
      ensures accepted == form.agreed && form == old(form)
      ensures !accepted ==> submitting == old(submitting) && saved == old(saved)
      ensures accepted ==> submitting && saved == old(saved) + [form]
    {
      if !form.agreed {
        return false;
      }
      submitting := true;
      saved := saved + [form];
      accepted := true;
    }

    /** The submit timer's callback; it runs whether or not the modal is still open. */
    method SubmitTimerElapsed()
      requires Valid()
      modifies this`submitting, this`success
      ensures Valid() && !submitting && success
    {
      submitting := false;
      success := true;
    }

    /** closeModal: the form is kept for the next opening. */
    method CloseModal()
      requires Valid()
      modifies this`registerOpen, this`step, this`success
      ensures Valid() && !registerOpen && step == 1 && !success
    {
      registerOpen := false;
      step := 1;
      success := false;
    }
  }
}
