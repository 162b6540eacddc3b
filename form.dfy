/** The submitted form: the `ContactFormData` record (functions/contact.ts) and its
    extraction from the multipart field set, where a missing field reads as "". */
module Form {

  datatype Option<T> = None | Some(value: T)

  /** The multipart body as received: field name to submitted text. */
  type FormData = map<string, string>

  /** `ContactFormData`: every field is a string, absent fields are "". */
  datatype ContactForm = ContactForm(
    name: string,
    email: string,
    phone: string,
    company: string,
    existingWebsite: string,
    interest: string,
    service: string,
    budget: string,
    message: string,
    consent: string,
    selectedPackage: string,
    selectedService: string)

  /** `formData.get(key)?.toString() || ''`. */
  function Field(data: FormData, key: string): (v: string)
    ensures v != "" <==> key in data && data[key] != ""
    ensures v != "" ==> v == data[key]
  {
    if key in data then data[key] else ""
  }

  /** The record built from the form, one named field per entry. */
  function Extract(data: FormData): ContactForm
  {
    ContactForm(
      Field(data, "name"), Field(data, "email"), Field(data, "phone"), Field(data, "company"),
      Field(data, "existing_website"), Field(data, "interest"), Field(data, "service"),
      Field(data, "budget"), Field(data, "message"), Field(data, "consent"),
      Field(data, "selected_package"), Field(data, "selected_service"))
  }

  /** The hidden `_gotcha` field: any non-empty value marks the submission as a bot's. */
  predicate IsSpam(data: FormData)
  {
    Field(data, "_gotcha") != ""
  }

  /** Keys the handler does not read leave the record unchanged. */
  lemma ExtractIgnoresOtherKeys(data: FormData, key: string, value: string)
    requires key !in {"name", "email", "phone", "company", "existing_website", "interest",
                      "service", "budget", "message", "consent", "selected_package", "selected_service"}
    ensures Extract(data[key := value]) == Extract(data)
  {
  }

  /** The form a browser submits for a record: each field under its own name. */
  function Submitted(f: ContactForm): FormData {
    map["name" := f.name, "email" := f.email, "phone" := f.phone, "company" := f.company,
        "existing_website" := f.existingWebsite, "interest" := f.interest, "service" := f.service,
        "budget" := f.budget, "message" := f.message, "consent" := f.consent,
        "selected_package" := f.selectedPackage, "selected_service" := f.selectedService]
  }

  /** Extraction reads every field back from the name it was submitted under. */
  lemma ExtractSubmitted(f: ContactForm)
    ensures Extract(Submitted(f)) == f
  {
  }
}
