/** `buildEmailText` (functions/contact.ts:279-333): the plain-text notification, built
    line by line and joined with newlines.  Values are inserted verbatim. */
module TextEmail {
  import opened Strings
  import opened Form
  import opened Fields
  import opened SubjectLine

  /** `'─'.repeat(30)`. */
  const Rule: string := "\U{2500}\U{2500}\U{2500}\U{2500}\U{2500}\U{2500}\U{2500}\U{2500}\U{2500}\U{2500}\U{2500}\U{2500}\U{2500}\U{2500}\U{2500}\U{2500}\U{2500}\U{2500}\U{2500}\U{2500}\U{2500}\U{2500}\U{2500}\U{2500}\U{2500}\U{2500}\U{2500}\U{2500}\U{2500}\U{2500}"
  const InterestHeader := "PACKAGE & SERVICE INTEREST"
  const Placeholder := "(No specific interest indicated)"
  const ContactHeader := "CONTACT DETAILS"
  const BusinessHeader := "BUSINESS CONTEXT"
  const Footer := "DoroLabs Website Form \U{2022} Reply to respond"

  /** The line or lines one field contributes; labels are padded to 13 columns. */
  function FieldLines(f: ContactForm, fld: FieldName): seq<string> {
    match fld
    case Package => ["Package:     " + Upper(f.selectedPackage)]
    case Service => ["Service:     " + ServiceName(BodyServiceNames, f.selectedService)]
    case Interest => ["Interest:    " + f.interest]
    case FormService => ["Form Svc:    " + f.service]
    case Budget => ["Budget:      " + f.budget]
    case Name => ["Name:        " + f.name]
    case Email => ["Email:       " + f.email]
    case Phone => ["Phone:       " + f.phone]
    case Company => ["Company:     " + f.company]
    case Website => ["Has Website: " + f.existingWebsite]
    case Message => ["", "Message:", f.message]
  }

  /** The lines of each field of `flds`, in order. */
  function LinesOf(f: ContactForm, flds: seq<FieldName>): seq<string> {
    Render(flds, fld => FieldLines(f, fld))
  }

  /** Every line of the plain-text body, in order. */
  function TextLines(f: ContactForm): seq<string> {
    InterestLines(f) + ContactLines(f) + BusinessLines(f) + [Rule, Footer]
  }

  function TextBody(f: ContactForm): string {
    Join(TextLines(f), "\n")
  }

  /** Reference view of the interest section: header, one block per shown field, the
      placeholder exactly when nothing is shown, and a blank line. */
  function InterestLines(f: ContactForm): seq<string> {
    [InterestHeader, Rule] + LinesOf(f, InterestShown(f)) + Opt(NoInterest(f), [Placeholder]) + [""]
  }

  function ContactLines(f: ContactForm): seq<string> {
    [ContactHeader, Rule] + LinesOf(f, ContactShown(f)) + [""]
  }

  /** The business section is present exactly when one of its fields was filled in. */
  function BusinessLines(f: ContactForm): (r: seq<string>)
    ensures r != [] <==> HasBusiness(f)
    ensures r != [] ==> r[0] == BusinessHeader && r[|r| - 1] == ""
  {
    Opt(HasBusiness(f), [BusinessHeader, Rule] + LinesOf(f, BusinessShown(f)) + [""])
  }

  /** `buildEmailText`: pushes the three sections and the footer, then joins the lines. */
  method BuildEmailText(f: ContactForm) returns (text: string)
    ensures text == TextBody(f)
  {
    var lines: seq<string> := [];
    lines := PushInterestSection(lines, f);
    lines := PushContactSection(lines, f);
    lines := PushBusinessSection(lines, f);
    lines := lines + [Rule];
    lines := lines + [Footer];
    InOrder(InterestLines(f), ContactLines(f), BusinessLines(f));
    text := Join(lines, "\n");
  }

  /** PACKAGE & SERVICE INTEREST: header, filled-in fields, placeholder when none, blank line. */
  method PushInterestSection(lines0: seq<string>, f: ContactForm) returns (lines: seq<string>)
    ensures lines == lines0 + InterestLines(f)
  {
    lines := lines0;
    lines := lines + [InterestHeader];
    lines := lines + [Rule];
    if f.selectedPackage != "" {
      lines := lines + ["Package:     " + Upper(f.selectedPackage)];
    }
    if f.selectedService != "" {
      lines := lines + ["Service:     " + ServiceName(BodyServiceNames, f.selectedService)];
    }
    if f.interest != "" { lines := lines + ["Interest:    " + f.interest]; }
    if f.service != "" { lines := lines + ["Form Svc:    " + f.service]; }
    if f.budget != "" { lines := lines + ["Budget:      " + f.budget]; }
    if f.selectedPackage == "" && f.selectedService == "" && f.interest == "" && f.service == "" && f.budget == "" {
      lines := lines + [Placeholder];
    }
    lines := lines + [""];
    InterestPushedAppends(lines0, f);
  }

  /** CONTACT DETAILS: header, name, email, phone when given, blank line. */
  method PushContactSection(lines0: seq<string>, f: ContactForm) returns (lines: seq<string>)
    ensures lines == lines0 + ContactLines(f)
  {
    lines := lines0;
    lines := lines + [ContactHeader];
    lines := lines + [Rule];
    lines := lines + ["Name:        " + f.name];
    lines := lines + ["Email:       " + f.email];
    if f.phone != "" { lines := lines + ["Phone:       " + f.phone]; }
    lines := lines + [""];
    ContactPushedAppends(lines0, f);
  }

  /** BUSINESS CONTEXT, only when company, website answer or message was given. */
  method PushBusinessSection(lines0: seq<string>, f: ContactForm) returns (lines: seq<string>)
    ensures lines == lines0 + BusinessLines(f)
  {
    lines := lines0;
    if f.company != "" || f.existingWebsite != "" || f.message != "" {
      lines := lines + [BusinessHeader];
      lines := lines + [Rule];
      if f.company != "" { lines := lines + ["Company:     " + f.company]; }
      if f.existingWebsite != "" { lines := lines + ["Has Website: " + f.existingWebsite]; }
      if f.message != "" {
        lines := lines + [""];
        lines := lines + ["Message:"];
        lines := lines + [f.message];
      }
      lines := lines + [""];
      BusinessPushedAppends(lines0, f);
    } else {
      assert lines == lines0 + BusinessLines(f);
    }
  }

  lemma InterestLinesUnfolded(f: ContactForm)
    ensures LinesOf(f, InterestShown(f)) ==
      Opt(f.selectedPackage != "", FieldLines(f, Package)) + Opt(f.selectedService != "", FieldLines(f, Service))
      + Opt(f.interest != "", FieldLines(f, Interest)) + Opt(f.service != "", FieldLines(f, FormService))
      + Opt(f.budget != "", FieldLines(f, Budget))
  {
    RenderInterest(f, fld => FieldLines(f, fld));
  }

  lemma ContactLinesUnfolded(f: ContactForm)
    ensures LinesOf(f, ContactShown(f)) == FieldLines(f, Name) + FieldLines(f, Email) + Opt(f.phone != "", FieldLines(f, Phone))
  {
    RenderContact(f, fld => FieldLines(f, fld));
  }

  lemma BusinessLinesUnfolded(f: ContactForm)
    ensures LinesOf(f, BusinessShown(f)) ==
      Opt(f.company != "", FieldLines(f, Company)) + Opt(f.existingWebsite != "", FieldLines(f, Website))
      + Opt(f.message != "", FieldLines(f, Message))
  {
    RenderBusiness(f, fld => FieldLines(f, fld));
  }

  /** Pushing the interest section appends exactly its reference lines. */
  lemma InterestPushedAppends(ls: seq<string>, f: ContactForm)
    ensures PushIf(PushIf(PushIf(PushIf(PushIf(PushIf(ls + [InterestHeader] + [Rule],
              f.selectedPackage != "", FieldLines(f, Package)), f.selectedService != "", FieldLines(f, Service)),
              f.interest != "", FieldLines(f, Interest)), f.service != "", FieldLines(f, FormService)),
              f.budget != "", FieldLines(f, Budget)), NoInterest(f), [Placeholder]) + [""]
         == ls + InterestLines(f)
  {
    assert ls + [InterestHeader] + [Rule] == ls + [InterestHeader, Rule];
    PushSix(ls, [InterestHeader, Rule],
      f.selectedPackage != "", FieldLines(f, Package), f.selectedService != "", FieldLines(f, Service),
      f.interest != "", FieldLines(f, Interest), f.service != "", FieldLines(f, FormService),
      f.budget != "", FieldLines(f, Budget), NoInterest(f), [Placeholder], [""]);
    InterestLinesUnfolded(f);
    Gather([InterestHeader, Rule],
      Opt(f.selectedPackage != "", FieldLines(f, Package)), Opt(f.selectedService != "", FieldLines(f, Service)),
      Opt(f.interest != "", FieldLines(f, Interest)), Opt(f.service != "", FieldLines(f, FormService)),
      Opt(f.budget != "", FieldLines(f, Budget)));
  }

  /** Pushing the contact section appends exactly its reference lines. */
  lemma ContactPushedAppends(ls: seq<string>, f: ContactForm)
    ensures PushIf(ls + [ContactHeader] + [Rule] + FieldLines(f, Name) + FieldLines(f, Email),
              f.phone != "", FieldLines(f, Phone)) + [""]
         == ls + ContactLines(f)
  {
    var hr, n, e, p := [ContactHeader, Rule], FieldLines(f, Name), FieldLines(f, Email), Opt(f.phone != "", FieldLines(f, Phone));
    assert ls + [ContactHeader] + [Rule] == ls + hr;
    Assoc(ls, hr, n);
    Assoc(ls, hr + n, e);
    PushAcc(ls, hr + n + e, f.phone != "", FieldLines(f, Phone));
    Assoc(ls, hr + n + e + p, [""]);
    ContactLinesUnfolded(f);
    Assoc(hr, n + e, p);
    Assoc(hr, n, e);
  }

  /** Pushing the business section appends exactly its reference lines, which are none
      when company, website answer and message are all empty. */
  lemma BusinessPushedAppends(ls: seq<string>, f: ContactForm)
    requires HasBusiness(f)
    ensures PushIf(PushIf(PushIf(ls + [BusinessHeader] + [Rule], f.company != "", FieldLines(f, Company)),
              f.existingWebsite != "", FieldLines(f, Website)), f.message != "", FieldLines(f, Message)) + [""]
         == ls + BusinessLines(f)
  {
    assert ls + [BusinessHeader] + [Rule] == ls + [BusinessHeader, Rule];
    PushThree(ls, [BusinessHeader, Rule],
      f.company != "", FieldLines(f, Company), f.existingWebsite != "", FieldLines(f, Website),
      f.message != "", FieldLines(f, Message), [""]);
    BusinessLinesUnfolded(f);
  }

  /** The lines pushed onto an empty list, then the rule and the footer, are the sections in order. */
  lemma InOrder(i: seq<string>, c: seq<string>, b: seq<string>)
    ensures [] + i + c + b + [Rule] + [Footer] == i + c + b + [Rule, Footer]
  {
    assert [] + i == i;
  }

  /** Lines framed by a two-line head and a rule-and-footer tail keep both in place. */
  lemma Framed(head: seq<string>, body: seq<string>)
    requires |head| >= 2
    ensures |head + body + [Rule, Footer]| >= 4
    ensures (head + body + [Rule, Footer])[0] == head[0] && (head + body + [Rule, Footer])[1] == head[1]
    ensures var t := head + body + [Rule, Footer]; t[|t| - 2] == Rule && t[|t| - 1] == Footer
  {
  }

  /** Lines of the interest fields are labelled, so none of them is the placeholder. */
  lemma InterestFieldLinesLabelled(f: ContactForm, fld: FieldName)
    requires fld in [Package, Service, Interest, FormService, Budget]
    ensures forall l :: l in FieldLines(f, fld) ==> |l| > 0 && l[0] != Placeholder[0]
  {
  }

  /** The text body always opens with the interest header and its rule, even when no
      interest field was filled in, and always ends with a rule and the footer. */
  lemma TextFrame(f: ContactForm)
    ensures |TextLines(f)| >= 4
    ensures TextLines(f)[0] == InterestHeader && TextLines(f)[1] == Rule
    ensures TextLines(f)[|TextLines(f)| - 2] == Rule && TextLines(f)[|TextLines(f)| - 1] == Footer
  {
    var head := InterestLines(f);
    assert head[0] == InterestHeader && head[1] == Rule;
    Assoc(head, ContactLines(f), BusinessLines(f));
    Framed(head, ContactLines(f) + BusinessLines(f));
  }

  /** The placeholder line is in the interest section exactly when none of its fields was
      filled in. */
  lemma PlaceholderIffNoInterest(f: ContactForm)
    ensures Placeholder in InterestLines(f) <==> NoInterest(f)
  {
    var shown := LinesOf(f, InterestShown(f));
    if !NoInterest(f) && Placeholder in InterestLines(f) {
      assert InterestLines(f) == [InterestHeader, Rule] + shown + [""];
      assert Placeholder in shown;
      RenderMember(InterestShown(f), fld => FieldLines(f, fld), Placeholder);
      var fld :| fld in InterestShown(f) && Placeholder in FieldLines(f, fld);
      InterestFieldLinesLabelled(f, fld);
    }
  }

  /** Every field the sections show contributes its lines, values verbatim. */
  lemma ShownFieldsInText(f: ContactForm, fld: FieldName)
    requires fld in InterestShown(f) + ContactShown(f) + BusinessShown(f)
    ensures forall l :: l in FieldLines(f, fld) ==> l in TextLines(f) && Occurs(l, TextBody(f))
  {
    forall l | l in FieldLines(f, fld)
      ensures l in TextLines(f)
    {
      if fld in InterestShown(f) {
        RenderMember(InterestShown(f), fld => FieldLines(f, fld), l);
        assert l in InterestLines(f);
      } else if fld in ContactShown(f) {
        RenderMember(ContactShown(f), fld => FieldLines(f, fld), l);
        assert l in ContactLines(f);
      } else {
        RenderMember(BusinessShown(f), fld => FieldLines(f, fld), l);
        assert l in BusinessLines(f);
      }
    }
    forall l | l in FieldLines(f, fld)
      ensures Occurs(l, TextBody(f))
    {
      InJoin(TextLines(f), "\n", l);
    }
  }

  /** A filled-in message follows a "Message:" line, verbatim, in the business section. */
  lemma MessageVerbatim(f: ContactForm)
    requires f.message != ""
    ensures exists i :: 0 <= i < |BusinessLines(f)| - 1 && BusinessLines(f)[i] == "Message:" && BusinessLines(f)[i + 1] == f.message
  {
    BusinessLinesUnfolded(f);
    var pre := [BusinessHeader, Rule] + Opt(f.company != "", FieldLines(f, Company)) + Opt(f.existingWebsite != "", FieldLines(f, Website));
    Assoc([BusinessHeader, Rule], Opt(f.company != "", FieldLines(f, Company)) + Opt(f.existingWebsite != "", FieldLines(f, Website)), FieldLines(f, Message));
    Assoc([BusinessHeader, Rule], Opt(f.company != "", FieldLines(f, Company)), Opt(f.existingWebsite != "", FieldLines(f, Website)));
    assert BusinessLines(f) == pre + ["", "Message:", f.message] + [""];
    var i := |pre| + 1;
    assert BusinessLines(f)[i] == "Message:" && BusinessLines(f)[i + 1] == f.message;
  }

  /** The contact section is always present: name and email lines come right after its rule. */
  lemma ContactFrame(f: ContactForm)
    ensures |ContactLines(f)| >= 5 && ContactLines(f)[0] == ContactHeader
    ensures ContactLines(f)[2] == "Name:        " + f.name && ContactLines(f)[3] == "Email:       " + f.email
  {
    ContactLinesUnfolded(f);
  }
}
