/** Failure-compatible wrappers shared by every calculator.
    Every operation of the engine either produces a value or fails with
    one `Failure`, the model of the `ValueError` the engine raises. */
module Outcomes {

  datatype Option<+T> = None | Some(value: T) {
    /** The value, or the failure `f` when there is none. */
    function ToResult(f: Failure): Result<T> {
      if Some? then Ok(value) else Err(f)
    }
  }

  /** Either a value or the reason the engine rejects its inputs. */
  datatype Result<+T> = Ok(value: T) | Err(error: Failure) {
    predicate IsFailure() {
      Err?
    }

    function PropagateFailure<U>(): Result<U>
      requires Err?
    {
      Err(error)
    }

    function Extract(): T
      requires Ok?
    {
      value
    }
  }

  /** One constructor per distinct `ValueError` the engine can raise. */
  datatype Failure =
    | UnknownCrop
    | UnknownPreviousCrop
    | UnknownSoilType
    | UnknownRainfall
    | UnknownMaterial
    | IndexOutOfRange
    | NegativeInput
    | UnknownLeyAge
    | UnknownIntensity
    | UnknownManagement
    | OrganicSoilNotCovered
    | YearOutOfRange
    | NoNitrogenData
    | NoSoilSpecificData
    | NoPhosphorusData
    | NoPotassiumData
    | NoSulfurData
    | NoTimingFactors
    | NoTimingFactor
    | CurrentPhOutOfRange
    | TargetPhOutOfRange
    | NoYieldData
    | UnknownDepth
    | NotFruitCrop
    | UnknownFruitSoil
    | MissingOrchardManagement
    | UnknownOrchardManagement
    | MissingSnsIndex
    | NoHopsData
    | MissingKIndex
}
