/** src/app/components/Formulario/Formulario.tsx: the generic form. Each
    field may be required and may carry a pattern with a message; a change
    validates the one field changed, a submit validates every field and
    passes the data on only when none has an error. */
module Formulario {
  import opened Wrappers
  import opened Patterns

  const Obrigatorio := "Este campo é obrigatório"
  const ValorInvalido := "Valor inválido"

  /** `validation?: { pattern?, message? }`; an absent message is "". */
  datatype Validacao = Validacao(pattern: Option<Pattern>, message: string)

  /** `FormField`, with what validation and the select element use of it. */
  datatype FormField = FormField(
    name: string,
    required: bool,
    validation: Option<Validacao>,
    isSelect: bool,
    options: seq<string>)

  /** The field has no pattern, or the value matches it. */
  predicate PatternAceita(field: FormField, value: string) {
    field.validation.None? || field.validation.value.pattern.None?
    || Matches(field.validation.value.pattern.value, value)
  }

  /** `validateField`: the first rule the value breaks, as its message, or "". */
  function ValidateField(value: string, field: FormField): (e: string)
    ensures e == "" <==> (!field.required || value != "") && PatternAceita(field, value)
    ensures field.required && value == "" ==> e == Obrigatorio
    ensures !(field.required && value == "") && !PatternAceita(field, value) ==>
      e == (if field.validation.value.message != "" then field.validation.value.message else ValorInvalido)
  {
    if field.required && value == "" then Obrigatorio
    else if !PatternAceita(field, value) then
      if field.validation.value.message != "" then field.validation.value.message else ValorInvalido
    else ""
  }

  /** `formData[name] || ''`: a missing value is validated as the empty one. */
  function Valor(data: map<string, string>, name: string): string {
    Lookup(data, name).GetOr("")
  }

  function ErroDe(field: FormField, data: map<string, string>): string {
    ValidateField(Valor(data, field.name), field)
  }

  /** The `newErrors` the submit loop builds over `fields`, in order. */
  function NewErrors(fields: seq<FormField>, data: map<string, string>): map<string, string> {
    if fields == [] then map[]
    else
      var m := NewErrors(fields[..|fields| - 1], data);
      var field := fields[|fields| - 1];
      var e := ErroDe(field, data);
      if e != "" then m[field.name := e] else m
  }

  /** Every field accepts its value. */
  predicate TodosValidos(fields: seq<FormField>, data: map<string, string>) {
    forall i :: 0 <= i < |fields| ==> ErroDe(fields[i], data) == ""
  }

  /** `newErrors` has a key exactly for the fields whose value is refused, and
      every message it holds is one of theirs. */
  lemma {:induction false} NewErrorsKeys(fields: seq<FormField>, data: map<string, string>, name: string)
    ensures name in NewErrors(fields, data) <==>
      exists i :: 0 <= i < |fields| && fields[i].name == name && ErroDe(fields[i], data) != ""
    ensures name in NewErrors(fields, data) ==>
      exists i :: 0 <= i < |fields| && fields[i].name == name && ErroDe(fields[i], data) == NewErrors(fields, data)[name]
  {
    if fields != [] {
      var init := fields[..|fields| - 1];
      NewErrorsKeys(init, data, name);
      forall i | 0 <= i < |init| ensures init[i] == fields[i] { }
    }
  }

  /** No error is recorded exactly when every field is valid. */
  lemma NewErrorsEmpty(fields: seq<FormField>, data: map<string, string>)
    ensures NewErrors(fields, data) == map[] <==> TodosValidos(fields, data)
  {
    if NewErrors(fields, data) == map[] {
      forall i | 0 <= i < |fields| ensures ErroDe(fields[i], data) == "" {
        NewErrorsKeys(fields, data, fields[i].name);
      }
    } else {
      var name :| name in NewErrors(fields, data);
      NewErrorsKeys(fields, data, name);
    }
  }

  /** Every value a select field holds is "" (the "Selecione..." entry) or
      one of its options. */
  predicate SelecoesValidas(fields: seq<FormField>, data: map<string, string>) {
    forall i :: 0 <= i < |fields| && fields[i].isSelect && fields[i].name in data ==>
      data[fields[i].name] == "" || data[fields[i].name] in fields[i].options
  }

  /** A change a select field of that name can make keeps the select values valid. */
  lemma ChangeKeepsSelections(fields: seq<FormField>, data: map<string, string>, name: string, value: string)
    requires SelecoesValidas(fields, data)
    requires forall i :: 0 <= i < |fields| && fields[i].isSelect && fields[i].name == name ==>
      value == "" || value in fields[i].options
    ensures SelecoesValidas(fields, data[name := value])
  {
  }

  /** A required select field of a submitted form holds one of its options. */
  lemma SubmittedSelect(fields: seq<FormField>, data: map<string, string>, i: nat)
    requires SelecoesValidas(fields, data) && TodosValidos(fields, data)
    requires i < |fields| && fields[i].isSelect && fields[i].required
    ensures fields[i].name in data && data[fields[i].name] in fields[i].options
  {
    assert ErroDe(fields[i], data) == "";
  }

  /** A submitted form's required fields are all filled in and its patterns all match. */
  lemma SubmittedField(fields: seq<FormField>, data: map<string, string>, i: nat)
    requires TodosValidos(fields, data) && i < |fields|
    ensures fields[i].required ==> fields[i].name in data && data[fields[i].name] != ""
    ensures PatternAceita(fields[i], Valor(data, fields[i].name))
  {
    assert ErroDe(fields[i], data) == "";
  }

  /** A field with neither `required` nor a pattern never has an error. */
  lemma FreeFieldValid(field: FormField, value: string)
    requires !field.required && (field.validation.None? || field.validation.value.pattern.None?)
    ensures ValidateField(value, field) == ""
  {
  }

  /** The form's state: the values typed so far and the errors shown. */
  class FormularioState {
    const fields: seq<FormField>
    var formData: map<string, string>
    var errors: map<string, string>

    /** `useState(initialValues)`, `useState({})` */
    constructor (fields: seq<FormField>, initialValues: map<string, string>)
      ensures this.fields == fields && formData == initialValues && errors == map[]
    {
      this.fields := fields;
      formData := initialValues;
      errors := map[];
    }

    /** `handleChange`: store the value and its error under the field's name. */
    method HandleChange(name: string, value: string, field: FormField)
      modifies this
      ensures formData == old(formData)[name := value]
      ensures errors == old(errors)[name := ValidateField(value, field)]
      ensures forall k :: k != name ==> Lookup(formData, k) == Lookup(old(formData), k)
      ensures forall k :: k != name ==> Lookup(errors, k) == Lookup(old(errors), k)
    {
      formData := formData[name := value];
      var error := ValidateField(value, field);
      errors := errors[name := error];
    }

    /** `handleSubmit`: validate every field, show the errors found, and hand
        the data to `onSubmit` (the result) only when there are none. */
    method HandleSubmit() returns (submitted: Option<map<string, string>>)
      modifies this
      ensures formData == old(formData)
      ensures errors == NewErrors(fields, formData)
      ensures submitted.Some? <==> TodosValidos(fields, formData)
      ensures submitted.Some? ==> submitted.value == formData
    {
      var newErrors: map<string, string> := map[];
      for i := 0 to |fields|
        invariant newErrors == NewErrors(fields[..i], formData)
      {
        assert fields[..i + 1][..i] == fields[..i];
        var field := fields[i];
        var error := ValidateField(Lookup(formData, field.name).GetOr(""), field);
        if error != "" {
          newErrors := newErrors[field.name := error];
        }
      }
      assert fields[..|fields|] == fields;
      errors := newErrors;
      NewErrorsEmpty(fields, formData);
      if |newErrors.Keys| == 0 {
        submitted := Some(formData);
      } else {
        submitted := None;
      }
    }
  }
}
