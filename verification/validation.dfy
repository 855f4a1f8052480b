/**
 * The validation accumulator: an append-only list of diagnostics, each with a
 * severity, a message and the dotted location in the descriptor it concerns.
 */
module Validation {

  /** The severity of a diagnostic. Go declares it as a plain integer
      type, so values other than the two named constants can exist. */
  type ErrorType = int

  const Warning: ErrorType := 0
  const Error: ErrorType := 1

  datatype ValidationError = ValidationError(errorType: ErrorType, message: string, location: string)

  datatype ValidationErrors = ValidationErrors(errors: seq<ValidationError>)

  /** The accumulator every validation pass starts from. */
  const NoErrors := ValidationErrors([])

  /** The text returned when the accumulator is used as an error value. */
  const Summary := "Validation errors or warnings have occurred"

  /** Specification: some diagnostic of the accumulator has severity `t`. */
  ghost predicate Reports(ve: ValidationErrors, t: ErrorType) {
    exists i :: 0 <= i < |ve.errors| && ve.errors[i].errorType == t
  }

  /** `prior` is an unchanged prefix of `ve`: nothing was removed or rewritten. */
  ghost predicate Extends(ve: ValidationErrors, prior: ValidationErrors) {
    prior.errors <= ve.errors
  }

  /** The accumulator's error text does not depend on its contents. */
  function ErrorText(ve: ValidationErrors): (r: string)
    ensures r == "Validation errors or warnings have occurred"
  {
    Summary
  }

  /** The display name of a severity, with a fallback for unnamed values. */
  function ErrorTypeString(t: ErrorType): (r: string)
    ensures t == Warning <==> r == "Warning"
    ensures t == Error <==> r == "Error"
    ensures t != Warning && t != Error <==> r == "Unknown"
  {
    var names := ["Warning", "Error"];
    if t < Warning || t > Error then "Unknown" else names[t]
  }

  /** Scans the diagnostics in order and stops at the first one of severity `t`. */
  method HasType(ve: ValidationErrors, t: ErrorType) returns (r: bool)
    ensures r <==> Reports(ve, t)
  {
    var i := 0;
    while i < |ve.errors|
      invariant 0 <= i <= |ve.errors|
      invariant forall j :: 0 <= j < i ==> ve.errors[j].errorType != t
    {
      if ve.errors[i].errorType == t {
        return true;
      }
      i := i + 1;
    }
    return false;
  }

  method HasErrors(ve: ValidationErrors) returns (r: bool)
    ensures r <==> exists i :: 0 <= i < |ve.errors| && ve.errors[i].errorType == Error
  {
    r := HasType(ve, Error);
  }

  method HasWarnings(ve: ValidationErrors) returns (r: bool)
    ensures r <==> exists i :: 0 <= i < |ve.errors| && ve.errors[i].errorType == Warning
  {
    r := HasType(ve, Warning);
  }

  /** Records an error diagnostic; `message` is the text of the error value. */
  function AddError(ve: ValidationErrors, message: string, loc: string): (r: ValidationErrors)
    ensures Extends(r, ve)
    ensures |r.errors| == |ve.errors| + 1
    ensures r.errors[|ve.errors|] == ValidationError(Error, message, loc)
  {
    ValidationErrors(ve.errors + [ValidationError(Error, message, loc)])
  }

  /** Records a warning diagnostic. */
  function AddWarning(ve: ValidationErrors, message: string, loc: string): (r: ValidationErrors)
    ensures Extends(r, ve)
    ensures |r.errors| == |ve.errors| + 1
    ensures r.errors[|ve.errors|] == ValidationError(Warning, message, loc)
  {
    ValidationErrors(ve.errors + [ValidationError(Warning, message, loc)])
  }

  /** After an error is added, the accumulator reports errors. */
  lemma AddErrorReportsError(ve: ValidationErrors, message: string, loc: string)
    ensures Reports(AddError(ve, message, loc), Error)
  {
  }

  /** Adding a warning never changes whether the accumulator reports errors. */
  lemma AddWarningKeepsErrors(ve: ValidationErrors, message: string, loc: string)
    ensures Reports(AddWarning(ve, message, loc), Error) <==> Reports(ve, Error)
  {
  }

  /** After a warning is added, the accumulator reports warnings. */
  lemma AddWarningReportsWarning(ve: ValidationErrors, message: string, loc: string)
    ensures Reports(AddWarning(ve, message, loc), Warning)
  {
  }

  /** Adding an error never changes whether the accumulator reports warnings. */
  lemma AddErrorKeepsWarnings(ve: ValidationErrors, message: string, loc: string)
    ensures Reports(AddError(ve, message, loc), Warning) <==> Reports(ve, Warning)
  {
  }

  /** The merge of two accumulators assumed by the composed validation: plain
      concatenation, first operand first, no de-duplication. */
  function Concat(a: ValidationErrors, b: ValidationErrors): (r: ValidationErrors)
    ensures Extends(r, a)
    ensures r.errors[|a.errors|..] == b.errors
  {
    ValidationErrors(a.errors + b.errors)
  }

  /** Concatenation reports a severity iff one of its operands does. */
  lemma ConcatReports(a: ValidationErrors, b: ValidationErrors, t: ErrorType)
    ensures Reports(Concat(a, b), t) <==> Reports(a, t) || Reports(b, t)
  {
  }
}
