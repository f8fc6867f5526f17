/** The input check of the registration form
    (src/components/batch/RegisterBatchForm.tsx), with dates as instants. */
module RegisterBatchForm {
  import opened Types

  /** The form's state: the medicine name, the two picked dates (a picker
      may be empty) and the quantity as typed. */
  datatype FormInput = FormInput(
    medicineName: string,
    manufacturingDate: Option<int>,
    expiryDate: Option<int>,
    quantity: string)

  datatype FormCheck = MissingFields | InvalidDates | Accepted

  /** The form refuses a submission with an empty field first, then one whose
      expiry date is not strictly after its manufacturing date; only what
      passes both reaches `registerBatch`. */
  function CheckRegistration(form: FormInput): (r: FormCheck)
    ensures r == MissingFields <==>
      form.medicineName == "" || form.manufacturingDate.None? || form.expiryDate.None? || form.quantity == ""
    ensures r == InvalidDates <==>
      r != MissingFields && form.expiryDate.value <= form.manufacturingDate.value
    ensures r == Accepted ==>
      && form.medicineName != "" && form.quantity != ""
      && form.manufacturingDate.Some? && form.expiryDate.Some?
      && form.manufacturingDate.value < form.expiryDate.value
  {
    if form.medicineName == "" || form.manufacturingDate.None? || form.expiryDate.None? || form.quantity == "" then
      MissingFields
    else if form.expiryDate.value <= form.manufacturingDate.value then
      InvalidDates
    else
      Accepted
  }
}
