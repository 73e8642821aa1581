/** The contact form (`ContactForm`): three fields, the submit sequence (validate, a
    1500 ms simulated send, success, a reset 3000 ms later), the focused field and the
    floating labels. The two delays are explicit events. */
module ContactForm {
  import opened Wrappers
  import opened AppContext

  const SendDelayMs: nat := 1500
  const ResetDelayMs: nat := 3000
  const MissingFieldsMessage: string := "Please fill in all fields"
  const SentMessage: string := "Message sent successfully!"

  datatype Field = Name | Email | Message

  datatype FormData = FormData(name: string, email: string, message: string)
  {
    function Get(f: Field): string
    {
      match f
      case Name => name
      case Email => email
      case Message => message
    }

    /** `setFormData({ ...formData, [f]: value })`. */
    function Set(f: Field, value: string): (r: FormData)
      ensures r.Get(f) == value
      ensures forall g :: g != f ==> r.Get(g) == Get(g)
    {
      match f
      case Name => this.(name := value)
      case Email => this.(email := value)
      case Message => this.(message := value)
    }
  }

  const EmptyForm: FormData := FormData("", "", "")

  /** No field is the empty string, the only falsy string. */
  predicate AllFilled(d: FormData)
  {
    d.name != "" && d.email != "" && d.message != ""
  }

  lemma AllFilledFields(d: FormData)
    ensures AllFilled(d) <==> forall f :: d.Get(f) != ""
  {
    assert d.Get(Name) == d.name && d.Get(Email) == d.email && d.Get(Message) == d.message;
  }

  /** Focused or holding text: the label sits on the border. */
  function LabelFloats(focused: Option<Field>, d: FormData, f: Field): (r: bool)
    ensures r <==> focused == Some(f) || d.Get(f) != ""
  {
    focused == Some(f) || d.Get(f) != ""
  }

  /** The field styles are highlighted only for the focused field. */
  function Highlighted(focused: Option<Field>, f: Field): (r: bool)
    ensures r <==> focused == Some(f)
  {
    focused == Some(f)
  }

  class Form {
    const app: App
    var isLoading: bool
    var isSuccess: bool
    var formData: FormData
    var focusedField: Option<Field>
    /** The simulated send has not resolved yet. */
    var sendsPending: nat
    /** Reset timeouts scheduled and not yet fired. */
    var resetsPending: nat

    /** The states the gated button allows: never loading and successful at once, loading
        exactly while a send is pending, and successful exactly while a reset is pending. */
    predicate Consistent()
      reads this
    {
      !(isLoading && isSuccess)
      && (isLoading <==> sendsPending == 1) && sendsPending <= 1
      && (isSuccess <==> resetsPending == 1) && resetsPending <= 1
    }

    function SubmitDisabled(): (r: bool)
      reads this
      ensures r <==> isLoading || isSuccess
    {
      isLoading || isSuccess
    }

    constructor (app: App)
      ensures this.app == app
      ensures !isLoading && !isSuccess && formData == EmptyForm && focusedField == None
      ensures sendsPending == 0 && resetsPending == 0
      ensures Consistent()
    {
      this.app := app;
      isLoading := false;
      isSuccess := false;
      formData := EmptyForm;
      focusedField := None;
      sendsPending := 0;
      resetsPending := 0;
    }

    /** `handleSubmit`. An empty field shows an error toast and stops; otherwise loading
        starts and the send is in flight. `toastId` is the id `showToast` generates. */
    method Submit(toastId: string)
      modifies this`isLoading, this`sendsPending, app`toasts, app`pendingDismissals
      ensures !AllFilled(formData) ==>
                isLoading == old(isLoading) && sendsPending == old(sendsPending)
                && app.toasts == old(app.toasts) + [Toast(toastId, MissingFieldsMessage, ErrorToast, DefaultToastMs)]
                && app.pendingDismissals == old(app.pendingDismissals) + multiset{toastId}
      ensures AllFilled(formData) ==>
                isLoading && sendsPending == old(sendsPending) + 1
                && app.toasts == old(app.toasts) && app.pendingDismissals == old(app.pendingDismissals)
      ensures old(Consistent() && !SubmitDisabled()) ==> Consistent()
    {
      if !AllFilled(formData) {
        app.ShowToast(toastId, MissingFieldsMessage, Some(ErrorToast), None);
        return;
      }
      isLoading := true;
      sendsPending := sendsPending + 1;
    }

    /** The 1500 ms send resolves: loading ends, success shows, a success toast appears
        and the reset is scheduled. */
    method SendResolved(toastId: string)
      requires sendsPending > 0
      modifies this`isLoading, this`isSuccess, this`sendsPending, this`resetsPending,
               app`toasts, app`pendingDismissals
      ensures !isLoading && isSuccess
      ensures sendsPending == old(sendsPending) - 1 && resetsPending == old(resetsPending) + 1
      ensures app.toasts == old(app.toasts) + [Toast(toastId, SentMessage, SuccessToast, DefaultToastMs)]
      ensures app.pendingDismissals == old(app.pendingDismissals) + multiset{toastId}
      ensures old(Consistent()) ==> Consistent()
    {
      isLoading := false;
      isSuccess := true;
      sendsPending := sendsPending - 1;
      app.ShowToast(toastId, SentMessage, Some(SuccessToast), None);
      resetsPending := resetsPending + 1;
    }

    /** The reset timeout: success ends and every field is cleared. */
    method ResetFired()
      requires resetsPending > 0
      modifies this`isSuccess, this`formData, this`resetsPending
      ensures !isSuccess && formData == EmptyForm
      ensures resetsPending == old(resetsPending) - 1
      ensures old(Consistent()) ==> Consistent()
    {
      isSuccess := false;
      formData := EmptyForm;
      resetsPending := resetsPending - 1;
    }

    method Focus(f: Field)
      modifies this`focusedField
      ensures focusedField == Some(f)
    {
      focusedField := Some(f);
    }

    method Blur()
      modifies this`focusedField
      ensures focusedField == None
    {
      focusedField := None;
    }

    /** Typing into one field leaves the other two as they were. */
    method Edit(f: Field, value: string)
      modifies this`formData
      ensures formData.Get(f) == value
      ensures forall g :: g != f ==> formData.Get(g) == old(formData).Get(g)
    {
      formData := formData.Set(f, value);
    }
  }

  /** A missing field, then a full send: the error toast, loading, success with its
      toast, and finally the cleared form. */
  method SubmitScenario()
  {
    var app := new App();
    var form := new Form(app);
    form.Edit(Name, "Ada");
    form.Edit(Email, "ada@example.com");
    assert form.formData.Get(Message) == "";
    form.Submit("t1");
    assert !form.isLoading && |app.toasts| == 1 && app.toasts[0].kind == ErrorToast;
    form.Edit(Message, "Hello");
    assert AllFilled(form.formData);
    form.Submit("t2");
    assert form.isLoading && form.SubmitDisabled() && |app.toasts| == 1;
    form.SendResolved("t3");
    assert form.isSuccess && !form.isLoading && form.SubmitDisabled();
    assert app.toasts[1] == Toast("t3", SentMessage, SuccessToast, DefaultToastMs);
    form.ResetFired();
    assert form.formData == EmptyForm && !form.SubmitDisabled() && form.Consistent();
  }
}
