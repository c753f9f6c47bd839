/** The submitted invoice form as the generator reads it. */
module Forms {
  /** Form fields by name; a field that was not submitted is absent. */
  type Form = map<string, string>

  /** form_data.get(key, default). */
  function Get(form: Form, key: string, default: string): (v: string)
    ensures key in form ==> v == form[key]
    ensures key !in form ==> v == default
  {
    if key in form then form[key] else default
  }

  /** `if form_data.get(key):` holds: the field is present and not empty. */
  predicate Filled(form: Form, key: string)
  {
    key in form && form[key] != ""
  }

  /** form_data.get('is_small_business') == 'true'. */
  predicate SmallBusiness(form: Form)
  {
    "is_small_business" in form && form["is_small_business"] == "true"
  }
}
