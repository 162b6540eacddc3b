/** The subject line of the notification email (functions/contact.ts:115-132) and the two
    service-code tables: the short one for the subject and the long one for the bodies. */
module SubjectLine {
  import opened Strings
  import opened Form

  /** The brand suffix every subject carries, with an en dash. */
  const Brand := " \U{2013} DoroLabs"

  /** Service codes shown in the subject line. */
  const SubjectServiceNames: map<string, string> := map[
    "seo" := "SEO",
    "ai" := "AI Automation",
    "reminders" := "Reminders",
    "custom" := "Custom Tools",
    "general" := "General"]

  /** Service codes shown in the text and HTML bodies. */
  const BodyServiceNames: map<string, string> := map[
    "seo" := "SEO & Visibility",
    "ai" := "AI Automation",
    "reminders" := "Appointment Reminders",
    "custom" := "Custom Tools",
    "general" := "General Inquiry"]

  const KnownCodes: set<string> := {"seo", "ai", "reminders", "custom", "general"}

  /** `serviceMap[code] || code`: the table's name, or the code itself when the
      table has no (non-empty) name for it. */
  function ServiceName(table: map<string, string>, code: string): string
  {
    if code in table && table[code] != "" then table[code] else code
  }

  /** The five known codes get their fixed names and every other code passes through. */
  lemma ServiceNames(code: string)
    ensures code !in KnownCodes ==>
      ServiceName(SubjectServiceNames, code) == code && ServiceName(BodyServiceNames, code) == code
    ensures code == "seo" ==>
      ServiceName(SubjectServiceNames, code) == "SEO" && ServiceName(BodyServiceNames, code) == "SEO & Visibility"
    ensures code == "ai" ==>
      ServiceName(SubjectServiceNames, code) == "AI Automation" && ServiceName(BodyServiceNames, code) == "AI Automation"
    ensures code == "reminders" ==>
      ServiceName(SubjectServiceNames, code) == "Reminders" && ServiceName(BodyServiceNames, code) == "Appointment Reminders"
    ensures code == "custom" ==>
      ServiceName(SubjectServiceNames, code) == "Custom Tools" && ServiceName(BodyServiceNames, code) == "Custom Tools"
    ensures code == "general" ==>
      ServiceName(SubjectServiceNames, code) == "General" && ServiceName(BodyServiceNames, code) == "General Inquiry"
  {
  }

  /** The two tables know the same codes and differ only in how three of them are shown. */
  lemma TablesDifferOnlyInNames(code: string)
    ensures SubjectServiceNames.Keys == BodyServiceNames.Keys == KnownCodes
    ensures ServiceName(SubjectServiceNames, code) == ServiceName(BodyServiceNames, code)
            <==> code !in {"seo", "reminders", "general"}
  {
  }

  /** A non-empty code never yields an empty name. */
  lemma ServiceNameNonEmpty(table: map<string, string>, code: string)
    requires code != ""
    ensures ServiceName(table, code) != ""
  {
  }

  /** The subject line: package first, then selected service, then the free-text
      interest or service, then the plain fallback. */
  function Subject(f: ContactForm): string
  {
    if f.selectedPackage != "" then
      "New " + Upper(f.selectedPackage) + " Package Lead" + Brand
    else if f.selectedService != "" then
      "New Lead (" + ServiceName(SubjectServiceNames, f.selectedService) + ")" + Brand
    else if f.interest != "" || f.service != "" then
      "New Lead" + Brand + " [" + (if f.interest != "" then f.interest else f.service) + "]"
    else
      "New Lead" + Brand
  }

  /** The four routing fields the subject is derived from. */
  predicate SameRouting(f: ContactForm, g: ContactForm) {
    f.selectedPackage == g.selectedPackage && f.selectedService == g.selectedService
    && f.interest == g.interest && f.service == g.service
  }

  /** Only the routing fields matter: contact details and message never reach the subject. */
  lemma SubjectDependsOnlyOnRouting(f: ContactForm, g: ContactForm)
    requires SameRouting(f, g)
    ensures Subject(f) == Subject(g)
  {
  }

  /** A selected package decides the subject whatever the other fields hold. */
  lemma PackageWins(f: ContactForm, g: ContactForm)
    requires f.selectedPackage != "" && g.selectedPackage == f.selectedPackage
    ensures Subject(f) == Subject(g) == "New " + Upper(f.selectedPackage) + " Package Lead" + Brand
  {
  }

  /** Without a package, a selected service decides the subject whatever the free-text
      fields say: its short name in parentheses. */
  lemma ServiceBeatsHints(f: ContactForm, g: ContactForm)
    requires f.selectedPackage == g.selectedPackage == "" && f.selectedService != ""
    requires g.selectedService == f.selectedService
    ensures Subject(f) == Subject(g) == "New Lead (" + ServiceName(SubjectServiceNames, f.selectedService) + ")" + Brand
  {
  }

  /** Among the free-text fields, a filled-in interest hides the service field. */
  lemma InterestBeatsService(f: ContactForm, g: ContactForm)
    requires f.selectedPackage == g.selectedPackage == "" && f.selectedService == g.selectedService == ""
    requires f.interest != "" && g.interest == f.interest
    ensures Subject(f) == Subject(g) == "New Lead" + Brand + " [" + f.interest + "]"
  {
  }

  /** With no package, no selected service and no interest, the form's service field is
      the bracketed hint. */
  lemma ServiceFieldAsHint(f: ContactForm)
    requires f.selectedPackage == "" && f.selectedService == "" && f.interest == "" && f.service != ""
    ensures Subject(f) == "New Lead" + Brand + " [" + f.service + "]"
  {
  }

  /** With none of the four routing fields filled in, the subject is the bare fallback. */
  lemma FallbackSubject(f: ContactForm)
    requires f.selectedPackage == "" && f.selectedService == "" && f.interest == "" && f.service == ""
    ensures Subject(f) == "New Lead" + Brand
  {
  }

  /** Every subject starts with "New "; it ends with the brand, unless a free-text hint
      follows the brand in brackets. */
  lemma SubjectShape(f: ContactForm)
    ensures |Subject(f)| >= 4 + |Brand| && Subject(f)[..4] == "New "
    ensures f.selectedPackage != "" || f.selectedService != "" || (f.interest == "" && f.service == "")
            ==> Subject(f)[|Subject(f)| - |Brand|..] == Brand
    ensures f.selectedPackage == "" && f.selectedService == "" && (f.interest != "" || f.service != "")
            ==> Subject(f)[8..8 + |Brand|] == Brand && Subject(f)[|Subject(f)| - 1] == ']'
  {
    var s := Subject(f);
    if f.selectedPackage != "" {
      var p := "New " + Upper(f.selectedPackage) + " Package Lead";
      assert s == p + Brand;
    } else if f.selectedService != "" {
      var p := "New Lead (" + ServiceName(SubjectServiceNames, f.selectedService) + ")";
      assert s == p + Brand;
    }
  }

  /** An illustration, not a contract: the subject of one submission that only says what
      it is interested in. */
  lemma SubjectExample()
    ensures Subject(ContactForm("Ana", "ana@example.com", "", "", "", "web", "", "", "", "", "", ""))
         == "New Lead \U{2013} DoroLabs [web]"
  {
  }
}
