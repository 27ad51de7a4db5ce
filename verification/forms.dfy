/** The Create and Edit screens' form logic, shared by the three resources:
    one-field updates, required-field validation, submit, reset, and the
    load that fills an Edit form from the server. */
module Forms {
  import opened Wrappers
  import opened Js
  import opened Http

  /** What distinguishes one resource's form screens from another's. */
  datatype Screen = Screen(
    fields: seq<string>,     // the required fields, in the order they are checked
    endpoint: string,        // the collection path, e.g. "/api/ruangan"
    listRoute: string,       // where a successful update navigates
    loadDefault: string,     // last link of the error chain when an Edit load fails
    updateDefault: string,   // last link of the error chain when an update fails
    putFieldsOnly: bool)     // the PUT body is cut down to `fields`

  const RequiredMessage := "Semua field harus diisi!"
  const SaveDefault := "Terjadi kesalahan saat menyimpan data"

  /** A form screen's state: the form object, the error (`null` is `None`),
      and the submit-in-progress flag. */
  datatype FormState = FormState(form: Form, error: Option<string>, loading: bool)

  /** The outcome of a submit: the new state, the requests issued, and the
      route navigated to, if any. */
  datatype Submitted = Submitted(state: FormState, requests: seq<Request>, navigateTo: Option<string>)

  /** `handleChange`: `{...form, [name]: value}`; `value` is the input's text. */
  function Change(f: Form, name: string, value: string): (g: Form)
    ensures Get(g, name) == Str(value)
    ensures forall k :: k != name ==> Get(g, k) == Get(f, k)
    ensures g.Keys == f.Keys + {name}
  {
    f[name := Str(value)]
  }

  /** The form every screen starts from and resets to: each field `""`. */
  function Blank(fields: seq<string>): (f: Form)
    ensures f.Keys == set k | k in fields
    ensures forall k :: k in fields ==> Get(f, k) == Str("")
  {
    map k | k in fields :: Str("")
  }

  /** The required-field check `!form.a || !form.b || …` negated: every
      listed field is truthy. */
  function Validate(f: Form, fields: seq<string>): (ok: bool)
    ensures ok <==> forall k :: k in fields ==> Truthy(Get(f, k))
  {
    if |fields| == 0 then true
    else
      assert forall k :: k in fields <==> k == fields[0] || k in fields[1..];
      Truthy(Get(f, fields[0])) && Validate(f, fields[1..])
  }

  /** A blank form never passes a non-empty check. */
  lemma BlankFailsValidation(fields: seq<string>)
    requires |fields| > 0
    ensures !Validate(Blank(fields), fields)
  {
    assert fields[0] in fields;
  }

  /** Filling a field with text keeps the other fields' verdicts: the form
      passes after the change exactly when every other field was truthy. */
  lemma ChangeAndValidate(f: Form, fields: seq<string>, name: string, value: string)
    requires name in fields && value != ""
    ensures Validate(Change(f, name, value), fields) <==>
            forall k :: k in fields && k != name ==> Truthy(Get(f, k))
  {
  }

  /** `handleSubmit` of a Create screen. A form with a falsy required field
      sets the fixed message and issues nothing; otherwise the form is POSTed,
      a success clears every field, a failure reports the error chain, and
      the loading flag ends false. */
  function SubmitCreate(s: FormState, sc: Screen, reply: Reply<()>): (o: Submitted)
    ensures !Validate(s.form, sc.fields) ==>
              o == Submitted(s.(error := Some(RequiredMessage)), [], None)
    ensures Validate(s.form, sc.fields) ==>
              && o.requests == [Request(POST, sc.endpoint, None, Some(s.form))]
              && !o.state.loading
              && o.navigateTo.None?
    ensures Validate(s.form, sc.fields) && reply.Ok? ==>
              o.state.form == Blank(sc.fields) && o.state.error.None?
    ensures Validate(s.form, sc.fields) && reply.Fail? ==>
              o.state.form == s.form && o.state.error == Some(ErrorMessage(reply.error, SaveDefault))
    ensures !s.loading ==> !o.state.loading
  {
    if !Validate(s.form, sc.fields) then
      Submitted(s.(error := Some(RequiredMessage)), [], None)
    else
      var request := [Request(POST, sc.endpoint, None, Some(s.form))];
      match reply
      case Ok(_) => Submitted(FormState(Blank(sc.fields), None, false), request, None)
      case Fail(e) => Submitted(FormState(s.form, Some(ErrorMessage(e, SaveDefault)), false), request, None)
  }

  /** A blocked submit cannot depend on the server: it happens before any
      request, so every reply gives the same outcome. */
  lemma BlockedCreateIgnoresReply(s: FormState, sc: Screen, r1: Reply<()>, r2: Reply<()>)
    requires !Validate(s.form, sc.fields)
    ensures SubmitCreate(s, sc, r1) == SubmitCreate(s, sc, r2)
  {
  }

  /** A POST is issued exactly when every required field is truthy. */
  lemma CreatePostsIffFilled(s: FormState, sc: Screen, reply: Reply<()>)
    ensures SubmitCreate(s, sc, reply).requests != [] <==>
            forall k :: k in sc.fields ==> Truthy(Get(s.form, k))
  {
  }

  /** After a successful create, submitting the cleared form again is
      blocked: one filled form cannot be POSTed twice by accident. */
  lemma CreateThenResubmitIsBlocked(s: FormState, sc: Screen, r1: Reply<()>, r2: Reply<()>)
    requires |sc.fields| > 0
    requires Validate(s.form, sc.fields) && r1.Ok?
    ensures SubmitCreate(SubmitCreate(s, sc, r1).state, sc, r2).requests == []
  {
    BlankFailsValidation(sc.fields);
  }

  /** The PUT body: the whole form, or only the required fields. */
  function Body(sc: Screen, f: Form): (b: Form)
    ensures sc.putFieldsOnly ==> b.Keys == set k | k in sc.fields
    ensures !sc.putFieldsOnly ==> b == f
    ensures forall k :: k in sc.fields ==> Get(b, k) == Get(f, k)
  {
    if sc.putFieldsOnly then map k | k in sc.fields :: Get(f, k) else f
  }

  /** `handleSubmit` of an Edit screen. Blocked as in Create; otherwise the
      body is PUT to the record's path, a success navigates to the list, and
      a failure reports the error chain and stays. */
  function SubmitEdit(s: FormState, sc: Screen, id: string, reply: Reply<()>): (o: Submitted)
    ensures !Validate(s.form, sc.fields) ==>
              o == Submitted(s.(error := Some(RequiredMessage)), [], None)
    ensures Validate(s.form, sc.fields) ==>
              && o.requests == [Request(PUT, sc.endpoint + "/" + id, None, Some(Body(sc, s.form)))]
              && o.state.form == s.form
              && !o.state.loading
    ensures Validate(s.form, sc.fields) && reply.Ok? ==>
              o.navigateTo == Some(sc.listRoute) && o.state.error.None?
    ensures Validate(s.form, sc.fields) && reply.Fail? ==>
              o.navigateTo.None? && o.state.error == Some(ErrorMessage(reply.error, sc.updateDefault))
  {
    if !Validate(s.form, sc.fields) then
      Submitted(s.(error := Some(RequiredMessage)), [], None)
    else
      var request := [Request(PUT, sc.endpoint + "/" + id, None, Some(Body(sc, s.form)))];
      match reply
      case Ok(_) => Submitted(FormState(s.form, None, false), request, Some(sc.listRoute))
      case Fail(e) => Submitted(FormState(s.form, Some(ErrorMessage(e, sc.updateDefault)), false), request, None)
  }

  /** A blocked update issues nothing, whatever the server would answer. */
  lemma BlockedEditIgnoresReply(s: FormState, sc: Screen, id: string, r1: Reply<()>, r2: Reply<()>)
    requires !Validate(s.form, sc.fields)
    ensures SubmitEdit(s, sc, id, r1) == SubmitEdit(s, sc, id, r2)
  {
  }

  /** `handleReset`, the cancel button: every field back to `""`, error gone. */
  function Reset(s: FormState, sc: Screen): (t: FormState)
    ensures forall k :: k in sc.fields ==> Get(t.form, k) == Str("")
    ensures t.form.Keys == set k | k in sc.fields
    ensures t.error.None? && t.loading == s.loading
  {
    FormState(Blank(sc.fields), None, s.loading)
  }

  /** Reset and a successful create leave the same form and error. */
  lemma ResetMatchesCreated(s: FormState, sc: Screen, reply: Reply<()>)
    requires Validate(s.form, sc.fields) && reply.Ok?
    ensures Reset(s, sc).form == SubmitCreate(s, sc, reply).state.form
    ensures Reset(s, sc).error == SubmitCreate(s, sc, reply).state.error
  {
  }

  /** The outcome of an Edit screen's load: the state, the dropdown options,
      the requests issued. */
  datatype Loaded<O> = Loaded(state: FormState, options: seq<O>, requests: seq<Request>)

  /** The load of an Edit screen that also needs a dropdown list: GET the
      record, then GET the options. Only when both succeed is the form
      replaced by the normalised record and the error cleared; a failure of
      either reports the error chain with the screen's load default. */
  function LoadWithOptions<T, O>(s: FormState, options: seq<O>, sc: Screen, id: string,
                                 record: Reply<T>, normalise: T -> Form,
                                 optionsPath: string, optionsReply: Reply<seq<O>>): (l: Loaded<O>)
    ensures record.Fail? ==>
              && l.requests == [Request(GET, sc.endpoint + "/" + id, None, None)]
              && l.state == s.(error := Some(ErrorMessage(record.error, sc.loadDefault)))
              && l.options == options
    ensures record.Ok? ==>
              l.requests == [Request(GET, sc.endpoint + "/" + id, None, None), Request(GET, optionsPath, None, None)]
    ensures record.Ok? && optionsReply.Fail? ==>
              l.state == s.(error := Some(ErrorMessage(optionsReply.error, sc.loadDefault))) && l.options == options
    ensures record.Ok? && optionsReply.Ok? ==>
              l.state == s.(form := normalise(record.data), error := None) && l.options == optionsReply.data
  {
    var first := Request(GET, sc.endpoint + "/" + id, None, None);
    match record
    case Fail(e) => Loaded(s.(error := Some(ErrorMessage(e, sc.loadDefault))), options, [first])
    case Ok(doc) =>
      var requests := [first, Request(GET, optionsPath, None, None)];
      match optionsReply
      case Fail(e) => Loaded(s.(error := Some(ErrorMessage(e, sc.loadDefault))), options, requests)
      case Ok(data) => Loaded(s.(form := normalise(doc), error := None), data, requests)
  }
}
