/**
 * Local checks and payload construction of the shipment form's submit
 * handler (`onFinish`), before any request is made.
 */
module Submit {
  import opened Common
  import opened Api

  /** The values held by the antd form store (`form.getFieldsValue()`). */
  datatype FormValues = FormValues(
    chulhaDt: Option<Date>,
    jepumCd: Option<string>,
    venderCd: Option<string>,
    amt: Option<Number>,
    bigo: Option<string>)

  /**
   * Why no insert is sent: no product chosen, no vendor chosen, or no date
   * (formatting the absent date throws inside the `try`).
   */
  datatype SubmitError = MissingProduct | MissingVender | MissingDate

  /**
   * What `onFinish` does with the form values before fetching: the product is
   * checked first, then the vendor, then the payload is built.
   */
  function PrepareInsert(values: FormValues): (r: Result<InsertPayload, SubmitError>)
    ensures !TruthyString(values.jepumCd) ==> r == Failure(MissingProduct)
    ensures TruthyString(values.jepumCd) && !TruthyString(values.venderCd) ==> r == Failure(MissingVender)
    ensures r.Success? <==> TruthyString(values.jepumCd) && TruthyString(values.venderCd) && values.chulhaDt.Some?
    ensures r.Success? ==>
      && r.value.chulhaDt == values.chulhaDt.value
      && Some(r.value.jepumCd) == values.jepumCd && r.value.jepumCd != ""
      && Some(r.value.venderCd) == values.venderCd && r.value.venderCd != ""
      && r.value.amt == values.amt
      && r.value.bigo == OrEmpty(values.bigo)
  {
    if !TruthyString(values.jepumCd) then Failure(MissingProduct)
    else if !TruthyString(values.venderCd) then Failure(MissingVender)
    else if values.chulhaDt.None? then Failure(MissingDate)
    else Success(InsertPayload(
      values.chulhaDt.value, values.jepumCd.value, values.venderCd.value, values.amt, OrEmpty(values.bigo)))
  }

  /** The product check wins: with no product the vendor is never looked at. */
  lemma ProductCheckedFirst(values: FormValues, venderCd: Option<string>)
    requires !TruthyString(values.jepumCd)
    ensures PrepareInsert(values.(venderCd := venderCd)) == PrepareInsert(values) == Failure(MissingProduct)
  {
  }

  /** A note left empty is sent as "", a written one as written. */
  lemma NoteDefaultsToEmpty(values: FormValues)
    requires PrepareInsert(values).Success?
    ensures values.bigo.None? ==> PrepareInsert(values).value.bigo == ""
    ensures TruthyString(values.bigo) ==> PrepareInsert(values).value.bigo == values.bigo.value
  {
  }
}
