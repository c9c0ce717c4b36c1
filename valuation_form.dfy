/** The valuation form of `src/components/ValuationForm.tsx`: all-fields
    validation and the error/loading/result updates of `compute`. */
module ValuationForm {
  import opened Js

  /** The five text inputs. */
  datatype FormFields = FormFields(
    revenue: string, ebitda: string, exitMultiple: string, wacc: string, growthRate: string)

  const EmptyForm := FormFields("", "", "", "", "")

  /** The values in the order `for…in` visits the keys. */
  function Values(f: FormFields): (vs: seq<string>)
    ensures |vs| == 5
  {
    [f.revenue, f.ebitda, f.exitMultiple, f.wacc, f.growthRate]
  }

  datatype ValuationResult = ValuationResult(ev: real, equity: real, irr: real)

  /** What the valuation request came back with. */
  datatype Response = Answered(result: ValuationResult) | Failed

  const RequiredMessage := "All fields required"
  const FailedMessage := "Calculation failed"

  /** `validate()`: false at the first empty field, true when none is empty. */
  method Validate(f: FormFields) returns (ok: bool)
    ensures ok <==> forall i :: 0 <= i < 5 ==> Values(f)[i] != ""
  {
    var vs := Values(f);
    var i := 0;
    while i < |vs|
      invariant 0 <= i <= |vs|
      invariant forall j :: 0 <= j < i ==> vs[j] != ""
    {
      if vs[i] == "" {
        return false;
      }
      i := i + 1;
    }
    return true;
  }

  /** The form component's state. */
  class ValuationFormState {
    var form: FormFields
    var result: Option<ValuationResult>
    var error: string
    var loading: bool

    constructor ()
      ensures form == EmptyForm && result == None && error == "" && !loading
    {
      form := EmptyForm;
      result := None;
      error := "";
      loading := false;
    }

    /** `compute` up to the request: either the validation error (and no
        request), or the error cleared and the spinner on. */
    method Start() returns (requested: bool)
      modifies this
      ensures requested <==> forall i :: 0 <= i < 5 ==> Values(form)[i] != ""
      ensures !requested ==> error == RequiredMessage && loading == old(loading)
      ensures requested ==> error == "" && loading
      ensures form == old(form) && result == old(result)
    {
      var ok := Validate(form);
      if !ok {
        error := RequiredMessage;
        return false;
      }
      error := "";
      loading := true;
      return true;
    }

    /** `compute` after the request: the result on success, the failure
        message otherwise, and the spinner off either way. */
    method Settle(response: Response)
      modifies this
      ensures response.Answered? ==> result == Some(response.result) && error == old(error)
      ensures response.Failed? ==> error == FailedMessage && result == old(result)
      ensures !loading && form == old(form)
    {
      match response {
        case Answered(r) => result := Some(r);
        case Failed => error := FailedMessage;
      }
      loading := false;
    }

    /** The whole of `compute`, with the server's answer supplied. */
    method Compute(response: Response)
      modifies this
      ensures (exists i :: 0 <= i < 5 && Values(old(form))[i] == "") ==>
        error == RequiredMessage && loading == old(loading) && result == old(result)
      ensures (forall i :: 0 <= i < 5 ==> Values(old(form))[i] != "") && response.Answered? ==>
        result == Some(response.result) && error == "" && !loading
      ensures (forall i :: 0 <= i < 5 ==> Values(old(form))[i] != "") && response.Failed? ==>
        error == FailedMessage && result == old(result) && !loading
      ensures form == old(form)
    {
      var requested := Start();
      if requested {
        Settle(response);
      }
    }
  }
}
