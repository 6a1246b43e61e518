/**
 * Live form validation: every validable field shows or hides its own error
 * display, and the form's submit button is disabled exactly while some field
 * is invalid. DOM nodes are objects whose class lists, text and disabled flag
 * the operations change in place; the browser's constraint-validation result
 * is read from each field and never written by this module.
 */
module Validation {
  import opened Wrappers

  /** The configuration object given to enableValidation and clearValidation. */
  datatype Settings = Settings(
    formSelector: string,
    inputSelector: string,
    submitButtonSelector: string,
    inactiveButtonClass: string,
    inputErrorClass: string,
    errorClass: string)
  {
    /** classList.add and classList.remove throw for an empty token or one holding whitespace. */
    predicate WellFormed() {
      ClassToken(inactiveButtonClass) && ClassToken(inputErrorClass) && ClassToken(errorClass)
    }
  }

  predicate ClassToken(c: string) {
    c != [] && forall i :: 0 <= i < |c| ==> c[i] != ' ' && c[i] != '\t' && c[i] != '\n' && c[i] != '\r' && c[i] != '\U{000C}'
  }

  /** What a field reports: its native validity and its data-error-message attribute. */
  datatype Validity = Validity(
    valid: bool,
    patternMismatch: bool,
    validationMessage: string,
    customMessage: Option<string>)

  /** What a field displays: its own classes and its error element's text and classes. */
  datatype Display = Display(inputClasses: set<string>, errorText: string, errorClasses: set<string>)

  datatype ButtonState = ButtonState(classes: set<string>, disabled: bool)

  /** Assigning an absent attribute (undefined) to textContent leaves the empty text. */
  function AttributeText(a: Option<string>): (t: string)
    ensures a.Some? ==> t == a.value
    ensures a.None? ==> t == ""
  {
    match a
    case Some(t) => t
    case None => ""
  }

  /** The message an invalid field shows: the custom one for a pattern mismatch, else the native one. */
  function ErrorMessage(v: Validity): (m: string)
    ensures v.patternMismatch && v.customMessage.Some? ==> m == v.customMessage.value
    ensures v.patternMismatch && v.customMessage.None? ==> m == ""
    ensures !v.patternMismatch ==> m == v.validationMessage
  {
    if v.patternMismatch then AttributeText(v.customMessage) else v.validationMessage
  }

  /** The display after showInputError with message `msg`. */
  function WithError(d: Display, msg: string, s: Settings): (r: Display)
    ensures s.inputErrorClass in r.inputClasses && s.errorClass in r.errorClasses
    ensures r.errorText == msg
    ensures forall c :: c != s.inputErrorClass ==> (c in r.inputClasses <==> c in d.inputClasses)
    ensures forall c :: c != s.errorClass ==> (c in r.errorClasses <==> c in d.errorClasses)
  {
    Display(d.inputClasses + {s.inputErrorClass}, msg, d.errorClasses + {s.errorClass})
  }

  /** The display after hideInputError. */
  function WithoutError(d: Display, s: Settings): (r: Display)
    ensures s.inputErrorClass !in r.inputClasses && s.errorClass !in r.errorClasses
    ensures r.errorText == ""
    ensures forall c :: c != s.inputErrorClass ==> (c in r.inputClasses <==> c in d.inputClasses)
    ensures forall c :: c != s.errorClass ==> (c in r.errorClasses <==> c in d.errorClasses)
  {
    Display(d.inputClasses - {s.inputErrorClass}, "", d.errorClasses - {s.errorClass})
  }

  /** The display after checkInputValidity on a field reporting `v`. */
  function Checked(v: Validity, d: Display, s: Settings): (r: Display)
    ensures s.inputErrorClass in r.inputClasses <==> !v.valid
    ensures s.errorClass in r.errorClasses <==> !v.valid
    ensures r.errorText == if v.valid then "" else ErrorMessage(v)
    ensures forall c :: c != s.inputErrorClass ==> (c in r.inputClasses <==> c in d.inputClasses)
    ensures forall c :: c != s.errorClass ==> (c in r.errorClasses <==> c in d.errorClasses)
  {
    if !v.valid then WithError(d, ErrorMessage(v), s) else WithoutError(d, s)
  }

  /** The button after disableSubmitButton. */
  function Disabled(b: ButtonState, s: Settings): (r: ButtonState)
    ensures r.disabled && s.inactiveButtonClass in r.classes
    ensures forall c :: c != s.inactiveButtonClass ==> (c in r.classes <==> c in b.classes)
  {
    ButtonState(b.classes + {s.inactiveButtonClass}, true)
  }

  /** The button after enableSubmitButton. */
  function Enabled(b: ButtonState, s: Settings): (r: ButtonState)
    ensures !r.disabled && s.inactiveButtonClass !in r.classes
    ensures forall c :: c != s.inactiveButtonClass ==> (c in r.classes <==> c in b.classes)
  {
    ButtonState(b.classes - {s.inactiveButtonClass}, false)
  }

  /** Hiding an error twice leaves the same display as hiding it once. */
  lemma HideIdempotent(d: Display, s: Settings)
    ensures WithoutError(WithoutError(d, s), s) == WithoutError(d, s)
  {
  }

  /** An error showing stays shown while the field stays invalid, with the latest message. */
  lemma ShowAfterShow(d: Display, m1: string, m2: string, s: Settings)
    ensures WithError(WithError(d, m1, s), m2, s) == WithError(d, m2, s)
  {
  }

  /** A field's error element, the element right after it in the markup. */
  class ErrorElement {
    var textContent: string
    var classList: set<string>

    constructor (text: string, classes: set<string>)
      ensures textContent == text && classList == classes
    {
      textContent := text;
      classList := classes;
    }
  }

  /** A validable field; the validity fields are kept current by the browser. */
  class InputElement {
    var valid: bool
    var patternMismatch: bool
    var validationMessage: string
    var customMessage: Option<string>
    var classList: set<string>
    const errorElement: ErrorElement

    constructor (v: Validity, classes: set<string>, error: ErrorElement)
      ensures Reported() == v && classList == classes && errorElement == error
    {
      valid, patternMismatch := v.valid, v.patternMismatch;
      validationMessage, customMessage := v.validationMessage, v.customMessage;
      classList := classes;
      errorElement := error;
    }

    function Reported(): Validity
      reads this
    {
      Validity(valid, patternMismatch, validationMessage, customMessage)
    }

    function Shown(): Display
      reads this, errorElement
    {
      Display(classList, errorElement.textContent, errorElement.classList)
    }
  }

  class ButtonElement {
    var classList: set<string>
    var disabled: bool

    constructor (classes: set<string>, isDisabled: bool)
      ensures State() == ButtonState(classes, isDisabled)
    {
      classList, disabled := classes, isDisabled;
    }

    function State(): ButtonState
      reads this
    {
      ButtonState(classList, disabled)
    }
  }

  /**
   * A form as the selectors find it: its fields in document order and its
   * submit button, which querySelector reports as null when it is missing.
   */
  class Form {
    const inputs: seq<InputElement>
    const button: ButtonElement?

    constructor (fields: seq<InputElement>, submit: ButtonElement?)
      ensures inputs == fields && button == submit
    {
      inputs, button := fields, submit;
    }

    /** Distinct fields, each with an error element of its own. */
    predicate WellFormed() {
      forall i, j :: 0 <= i < j < |inputs| ==> inputs[i] != inputs[j] && inputs[i].errorElement != inputs[j].errorElement
    }

    /** The fields and their error elements. */
    ghost function Fields(): set<object> {
      (set i | 0 <= i < |inputs| :: inputs[i] as object) + (set i | 0 <= i < |inputs| :: inputs[i].errorElement as object)
    }
  }

  /** The hasInvalidInput predicate: some field reports itself invalid. */
  function HasInvalidInput(inputs: seq<InputElement>): (r: bool)
    reads inputs
    ensures r <==> exists i :: 0 <= i < |inputs| && !inputs[i].valid
  {
    if inputs == [] then false else !inputs[0].valid || HasInvalidInput(inputs[1..])
  }

  /** The button after toggleButtonState over `inputs`. */
  function ToggledState(inputs: seq<InputElement>, b: ButtonState, s: Settings): (r: ButtonState)
    reads inputs
    ensures r.disabled <==> exists i :: 0 <= i < |inputs| && !inputs[i].valid
    ensures s.inactiveButtonClass in r.classes <==> exists i :: 0 <= i < |inputs| && !inputs[i].valid
    ensures forall c :: c != s.inactiveButtonClass ==> (c in r.classes <==> c in b.classes)
  {
    if HasInvalidInput(inputs) then Disabled(b, s) else Enabled(b, s)
  }

  /** The button of a set-up form is disabled, and styled so, exactly while some field is invalid. */
  predicate ButtonMirrorsValidity(inputs: seq<InputElement>, button: ButtonElement, s: Settings)
    reads inputs, button
  {
    (button.disabled <==> HasInvalidInput(inputs)) && (s.inactiveButtonClass in button.classList <==> HasInvalidInput(inputs))
  }

  method ShowInputError(input: InputElement, s: Settings)
    requires s.WellFormed()
    modifies input, input.errorElement
    ensures input.Reported() == old(input.Reported())
    ensures input.Shown() == WithError(old(input.Shown()), ErrorMessage(input.Reported()), s)
  {
    var errorElement := input.errorElement;
    var errorMessage := input.validationMessage;
    if input.patternMismatch {
      errorMessage := AttributeText(input.customMessage);
    }
    input.classList := input.classList + {s.inputErrorClass};
    errorElement.textContent := errorMessage;
    errorElement.classList := errorElement.classList + {s.errorClass};
  }

  method HideInputError(input: InputElement, s: Settings)
    requires s.WellFormed()
    modifies input, input.errorElement
    ensures input.Reported() == old(input.Reported())
    ensures input.Shown() == WithoutError(old(input.Shown()), s)
  {
    var errorElement := input.errorElement;
    input.classList := input.classList - {s.inputErrorClass};
    errorElement.textContent := "";
    errorElement.classList := errorElement.classList - {s.errorClass};
  }

  method CheckInputValidity(input: InputElement, s: Settings)
    requires s.WellFormed()
    modifies input, input.errorElement
    ensures input.Reported() == old(input.Reported())
    ensures input.Shown() == Checked(input.Reported(), old(input.Shown()), s)
  {
    if !input.valid {
      ShowInputError(input, s);
    } else {
      HideInputError(input, s);
    }
  }

  method DisableSubmitButton(button: ButtonElement, s: Settings)
    requires s.WellFormed()
    modifies button
    ensures button.State() == Disabled(old(button.State()), s)
  {
    button.classList := button.classList + {s.inactiveButtonClass};
    button.disabled := true;
  }

  method EnableSubmitButton(button: ButtonElement, s: Settings)
    requires s.WellFormed()
    modifies button
    ensures button.State() == Enabled(old(button.State()), s)
  {
    button.classList := button.classList - {s.inactiveButtonClass};
    button.disabled := false;
  }

  method ToggleButtonState(inputs: seq<InputElement>, button: ButtonElement, s: Settings)
    requires s.WellFormed()
    modifies button
    ensures ButtonMirrorsValidity(inputs, button, s)
    ensures button.State() == ToggledState(inputs, old(button.State()), s)
  {
    if HasInvalidInput(inputs) {
      DisableSubmitButton(button, s);
    } else {
      EnableSubmitButton(button, s);
    }
  }

  /**
   * The synchronous part of setEventListeners: the initial toggle. It fails,
   * as the TypeError of the source does, when the form has no submit button;
   * the input listeners are then never registered.
   */
  method SetEventListeners(form: Form, s: Settings) returns (ok: bool)
    requires s.WellFormed()
    modifies form.button
    ensures ok <==> form.button != null
    ensures ok ==> ButtonMirrorsValidity(form.inputs, form.button, s)
    ensures ok ==> form.button.State() == ToggledState(form.inputs, old(form.button.State()), s)
  {
    if form.button == null {
      return false;
    }
    ToggleButtonState(form.inputs, form.button, s);
    ok := true;
  }

  /**
   * The body of the listener that a set-up form registers on its field
   * number k: check that field, then recompute the button from all fields.
   */
  method InputHandler(form: Form, k: nat, s: Settings)
    requires s.WellFormed() && form.WellFormed()
    requires k < |form.inputs| && form.button != null
    modifies form.inputs[k], form.inputs[k].errorElement, form.button
    ensures forall j :: 0 <= j < |form.inputs| ==> form.inputs[j].Reported() == old(form.inputs[j].Reported())
    ensures form.inputs[k].Shown() == Checked(form.inputs[k].Reported(), old(form.inputs[k].Shown()), s)
    ensures forall j :: 0 <= j < |form.inputs| && j != k ==> form.inputs[j].Shown() == old(form.inputs[j].Shown())
    ensures ButtonMirrorsValidity(form.inputs, form.button, s)
    ensures form.button.State() == ToggledState(form.inputs, old(form.button.State()), s)
  {
    CheckInputValidity(form.inputs[k], s);
    ToggleButtonState(form.inputs, form.button, s);
  }

  /**
   * clearValidation: hide every field's error, whatever its validity, then
   * disable the button. Without a button the source throws after the fields
   * are cleared; `ok` is false then.
   */
  method ClearValidation(form: Form, s: Settings) returns (ok: bool)
    requires s.WellFormed() && form.WellFormed()
    modifies form.Fields(), form.button
    ensures forall j :: 0 <= j < |form.inputs| ==> form.inputs[j].Reported() == old(form.inputs[j].Reported())
    ensures forall j :: 0 <= j < |form.inputs| ==> form.inputs[j].Shown() == WithoutError(old(form.inputs[j].Shown()), s)
    ensures ok <==> form.button != null
    ensures ok ==> form.button.State() == Disabled(old(form.button.State()), s)
  {
    var inputs := form.inputs;
    for i := 0 to |inputs|
      invariant forall j :: 0 <= j < |inputs| ==> inputs[j].Reported() == old(inputs[j].Reported())
      invariant forall j :: 0 <= j < i ==> inputs[j].Shown() == WithoutError(old(inputs[j].Shown()), s)
      invariant forall j :: i <= j < |inputs| ==> inputs[j].Shown() == old(inputs[j].Shown())
      invariant form.button != null ==> form.button.State() == old(form.button.State())
    {
      HideInputError(inputs[i], s);
    }
    if form.button == null {
      return false;
    }
    DisableSubmitButton(form.button, s);
    ok := true;
  }

  /** Distinct forms have distinct submit buttons. */
  predicate SeparateButtons(forms: seq<Form>) {
    forall i, j :: 0 <= i < j < |forms| && forms[i].button != null ==> forms[i].button != forms[j].button
  }

  ghost function Buttons(forms: seq<Form>): set<object> {
    set i | 0 <= i < |forms| && forms[i].button != null :: forms[i].button as object
  }

  /**
   * enableValidation over the forms the form selector finds, in document
   * order. The first form without a button stops the loop with the
   * source's TypeError; `count` is how many forms were set up before it.
   */
  method EnableValidation(forms: seq<Form>, s: Settings) returns (count: nat)
    requires s.WellFormed() && SeparateButtons(forms)
    modifies Buttons(forms)
    ensures count <= |forms|
    ensures count < |forms| ==> forms[count].button == null
    ensures forall j :: 0 <= j < count ==> forms[j].button != null && ButtonMirrorsValidity(forms[j].inputs, forms[j].button, s)
    ensures forall j :: 0 <= j < count ==> forms[j].button.State() == ToggledState(forms[j].inputs, old(forms[j].button.State()), s)
    ensures forall j :: count < j < |forms| && forms[j].button != null ==> forms[j].button.State() == old(forms[j].button.State())
  {
    count := 0;
    while count < |forms|
      invariant count <= |forms|
      invariant forall j :: 0 <= j < count ==> forms[j].button != null && ButtonMirrorsValidity(forms[j].inputs, forms[j].button, s)
      invariant forall j :: 0 <= j < count ==> forms[j].button.State() == ToggledState(forms[j].inputs, old(forms[j].button.State()), s)
      invariant forall j :: count <= j < |forms| && forms[j].button != null ==> forms[j].button.State() == old(forms[j].button.State())
    {
      var ok := SetEventListeners(forms[count], s);
      if !ok {
        return;
      }
      count := count + 1;
    }
  }

  /**
   * A form with one required text field, initially empty: the button starts
   * disabled, typing valid text enables it, clearing the field disables it
   * again and shows the native message.
   */
  method RequiredFieldScenario()
  {
    var s := Settings("form", "input", "button", "off", "bad", "shown");
    var error := new ErrorElement("", {});
    var field := new InputElement(Validity(false, false, "Fill in this field.", None), {}, error);
    var button := new ButtonElement({}, false);
    var form := new Form([field], button);
    assert s.WellFormed() && form.WellFormed();
    var ok := SetEventListeners(form, s);
    assert HasInvalidInput(form.inputs);
    assert button.disabled && "off" in button.classList;
    field.valid, field.validationMessage := true, "";
    InputHandler(form, 0, s);
    assert !HasInvalidInput(form.inputs);
    assert !button.disabled && error.textContent == "" && "bad" !in field.classList;
    field.valid, field.validationMessage := false, "Fill in this field.";
    InputHandler(form, 0, s);
    assert HasInvalidInput(form.inputs);
    assert button.disabled && error.textContent == "Fill in this field." && "shown" in error.classList;
  }

  /** A field whose pattern rejects "abc" shows its data-error-message, not the native message. */
  method PatternMismatchScenario()
  {
    var s := Settings("form", "input", "button", "off", "bad", "shown");
    var error := new ErrorElement("", {"popup__error"});
    var field := new InputElement(Validity(false, true, "Match the requested format.", Some("Digits only")), {}, error);
    var button := new ButtonElement({}, false);
    var form := new Form([field], button);
    var ok := SetEventListeners(form, s);
    InputHandler(form, 0, s);
    assert error.textContent == "Digits only" && "bad" in field.classList && button.disabled;
    assert error.classList == {"popup__error", "shown"};
  }
}
