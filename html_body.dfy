/** `buildEmailHtml` (functions/contact.ts:196-276): the HTML notification.  Each filled-in
    field becomes one table row whose value is escaped; a section whose row list is empty
    is left out altogether; the whole document is trimmed. */
module HtmlEmail {
  import opened Strings
  import opened Escaping
  import opened Form
  import opened Fields
  import opened SubjectLine
  import opened TextEmail

  const LabelOpen := "<tr><td style=\"padding: 6px 12px; color: #666;\">"
  const MessageLabelOpen := "<tr><td style=\"padding: 6px 12px; color: #666; vertical-align: top;\">"
  const LabelClose := "</td>"
  const PlainOpen := "<td style=\"padding: 6px 12px;\">"
  const StrongOpen := "<td style=\"padding: 6px 12px; font-weight: 600;\">"
  const CellClose := "</td></tr>"

  const InterestTitle := "Package & Service Interest"
  const ContactTitle := "Contact Details"
  const BusinessTitle := "Business Context"

  /** The label cell's text. */
  function Label(fld: FieldName): string {
    match fld
    case Package => "Package"
    case Service => "Service"
    case Interest => "Interest"
    case FormService => "Form Service"
    case Budget => "Budget"
    case Name => "Name"
    case Email => "Email"
    case Phone => "Phone"
    case Company => "Company"
    case Website => "Has Website"
    case Message => "Message"
  }

  /** What a row displays before escaping: the package upper-cased, the service by its
      display name, every other field as submitted. */
  function Display(f: ContactForm, fld: FieldName): string {
    match fld
    case Package => Upper(f.selectedPackage)
    case Service => ServiceName(BodyServiceNames, f.selectedService)
    case _ => Value(f, fld)
  }

  /** The value as it appears in the markup: escaped, and for the message with line breaks. */
  function Shown(f: ContactForm, fld: FieldName): string {
    if fld == Message then MessageMarkup(f.message) else EscapeHtml(Display(f, fld))
  }

  /** A `mailto:` or `tel:` link whose target and text are both the escaped value. */
  function LinkCell(scheme: string, v: string): string {
    PlainOpen + "<a href=\"" + scheme + v + "\" style=\"color: #283d3d;\">" + v + "</a>" + CellClose
  }

  function ValueCell(f: ContactForm, fld: FieldName): string {
    match fld
    case Package | Service | Budget => StrongOpen + Shown(f, fld) + CellClose
    case Email => LinkCell("mailto:", Shown(f, fld))
    case Phone => LinkCell("tel:", Shown(f, fld))
    case _ => PlainOpen + Shown(f, fld) + CellClose
  }

  /** One table row: the label cell, then the value cell. */
  function Row(f: ContactForm, fld: FieldName): string {
    (if fld == Message then MessageLabelOpen else LabelOpen) + Label(fld) + LabelClose + ValueCell(f, fld)
  }

  function RowsOf(f: ContactForm, flds: seq<FieldName>): seq<string> {
    Render(flds, fld => [Row(f, fld)])
  }

  function InterestRows(f: ContactForm): seq<string> {
    RowsOf(f, InterestShown(f))
  }

  function ContactRows(f: ContactForm): seq<string> {
    RowsOf(f, ContactShown(f))
  }

  function BusinessRows(f: ContactForm): seq<string> {
    RowsOf(f, BusinessShown(f))
  }

  const SectionOpen := "\n    <div style=\"margin-bottom: 16px;\">\n      <div style=\"background: #283d3d; color: white; padding: 8px 12px; font-size: 13px; font-weight: 600; text-transform: uppercase; letter-spacing: 0.5px;\">"
  const SectionMid := "</div>\n      <table style=\"width: 100%; border-collapse: collapse; background: #fafafa; border: 1px solid #e0e0e0; border-top: none;\">\n        "
  const RowSeparator := "\n        "
  const SectionClose := "\n      </table>\n    </div>"

  /** `buildSection`: nothing at all for no rows, otherwise a titled table of the rows. */
  function Section(title: string, rows: seq<string>): (r: string)
    ensures r == "" <==> rows == []
    ensures rows != [] ==> StartsWith(r, SectionOpen + title + SectionMid)
    ensures forall i :: 0 <= i < |rows| ==> Occurs(rows[i], r)
  {
    if |rows| == 0 then ""
    else
      var head, body := SectionOpen + title + SectionMid, Join(rows, RowSeparator);
      assert (head + body + SectionClose)[..|head|] == head;
      assert forall i :: 0 <= i < |rows| ==> Occurs(rows[i], head + body + SectionClose) by {
        forall i | 0 <= i < |rows|
          ensures Occurs(rows[i], head + body + SectionClose)
        {
          JoinContains(rows, RowSeparator, i);
          Within(head, body, SectionClose, rows[i]);
        }
      }
      head + body + SectionClose
  }

  const DocHead :=
    "<!DOCTYPE html>\n" +
    "<html>\n<head>\n  <meta charset=\"utf-8\">\n  <title>New Lead</title>\n</head>\n" +
    "<body style=\"font-family: -apple-system, BlinkMacSystemFont, 'Segoe UI', Roboto, sans-serif; line-height: 1.5; color: #333; max-width: 500px; margin: 0 auto; padding: 16px; background: #f5f5f5;\">\n" +
    "  <div style=\"background: white; border-radius: 8px; overflow: hidden; box-shadow: 0 1px 3px rgba(0,0,0,0.1);\">\n    "
  const SectionGap := "\n    "
  const DocTail :=
    "\n    \n    <div style=\"padding: 12px; font-size: 11px; color: #999; text-align: center; border-top: 1px solid #eee;\">\n" +
    "      DoroLabs Website Form \U{2022} Reply to respond\n    </div>\n  </div>\n" +
    "</body>\n</html>"

  /** The template literal around the three sections, then `.trim()`. */
  function Document(s1: string, s2: string, s3: string): string {
    Trim("\n" + DocHead + s1 + SectionGap + s2 + SectionGap + s3 + DocTail + "\n  ")
  }

  function HtmlBody(f: ContactForm): string {
    Document(Section(InterestTitle, InterestRows(f)), Section(ContactTitle, ContactRows(f)),
             Section(BusinessTitle, BusinessRows(f)))
  }

  /** `buildEmailHtml`: collects the rows of each section, then fills in the template. */
  method BuildEmailHtml(f: ContactForm) returns (html: string)
    ensures html == HtmlBody(f)
  {
    var interestSection := CollectInterestRows(f);
    var contactSection := CollectContactRows(f);
    var businessSection := CollectBusinessRows(f);
    html := Document(Section(InterestTitle, interestSection), Section(ContactTitle, contactSection),
                     Section(BusinessTitle, businessSection));
  }

  method CollectInterestRows(f: ContactForm) returns (rows: seq<string>)
    ensures rows == InterestRows(f)
  {
    rows := [];
    if f.selectedPackage != "" { rows := rows + [Row(f, Package)]; }
    if f.selectedService != "" { rows := rows + [Row(f, Service)]; }
    if f.interest != "" { rows := rows + [Row(f, Interest)]; }
    if f.service != "" { rows := rows + [Row(f, FormService)]; }
    if f.budget != "" { rows := rows + [Row(f, Budget)]; }
    InterestRowsByPushes(f);
  }

  method CollectContactRows(f: ContactForm) returns (rows: seq<string>)
    ensures rows == ContactRows(f)
  {
    rows := [];
    rows := rows + [Row(f, Name)];
    rows := rows + [Row(f, Email)];
    if f.phone != "" { rows := rows + [Row(f, Phone)]; }
    ContactRowsByPushes(f);
  }

  method CollectBusinessRows(f: ContactForm) returns (rows: seq<string>)
    ensures rows == BusinessRows(f)
  {
    rows := [];
    if f.company != "" { rows := rows + [Row(f, Company)]; }
    if f.existingWebsite != "" { rows := rows + [Row(f, Website)]; }
    if f.message != "" { rows := rows + [Row(f, Message)]; }
    BusinessRowsByPushes(f);
  }

  lemma InterestRowsByPushes(f: ContactForm)
    ensures PushIf(PushIf(PushIf(PushIf(PushIf([], f.selectedPackage != "", [Row(f, Package)]),
              f.selectedService != "", [Row(f, Service)]), f.interest != "", [Row(f, Interest)]),
              f.service != "", [Row(f, FormService)]), f.budget != "", [Row(f, Budget)])
         == InterestRows(f)
  {
    var block := fld => [Row(f, fld)];
    RenderInterest(f, block);
    PushFive([], f.selectedPackage != "", block(Package), f.selectedService != "", block(Service),
      f.interest != "", block(Interest), f.service != "", block(FormService), f.budget != "", block(Budget));
    assert [] + RowsOf(f, InterestShown(f)) == RowsOf(f, InterestShown(f));
  }

  lemma ContactRowsByPushes(f: ContactForm)
    ensures PushIf([] + [Row(f, Name)] + [Row(f, Email)], f.phone != "", [Row(f, Phone)]) == ContactRows(f)
  {
    RenderContact(f, fld => [Row(f, fld)]);
    PushIfOpt([] + [Row(f, Name)] + [Row(f, Email)], f.phone != "", [Row(f, Phone)]);
    assert [] + [Row(f, Name)] == [Row(f, Name)];
  }

  lemma BusinessRowsByPushes(f: ContactForm)
    ensures PushIf(PushIf(PushIf([], f.company != "", [Row(f, Company)]), f.existingWebsite != "", [Row(f, Website)]),
              f.message != "", [Row(f, Message)])
         == BusinessRows(f)
  {
    var block := fld => [Row(f, fld)];
    RenderBusiness(f, block);
    PushTrio([], f.company != "", block(Company), f.existingWebsite != "", block(Website),
      f.message != "", block(Message));
    assert [] + RowsOf(f, BusinessShown(f)) == RowsOf(f, BusinessShown(f));
  }

  /** Row `i` of a section is the row of its `i`-th shown field. */
  lemma {:induction false} RowsOfFields(f: ContactForm, flds: seq<FieldName>)
    ensures |RowsOf(f, flds)| == |flds|
    ensures forall i :: 0 <= i < |flds| ==> RowsOf(f, flds)[i] == Row(f, flds[i])
  {
    if flds != [] {
      var rest := RowsOf(f, flds[1..]);
      RowsOfFields(f, flds[1..]);
      assert RowsOf(f, flds) == [Row(f, flds[0])] + rest;
      forall i | 1 <= i < |flds|
        ensures RowsOf(f, flds)[i] == Row(f, flds[i])
      {
        assert RowsOf(f, flds)[i] == rest[i - 1];
      }
    }
  }

  /** The template starts and ends with a tag, so `.trim()` removes exactly the newline
      before `<!DOCTYPE html>` and the indentation after `</html>`. */
  lemma DocumentShape(s1: string, s2: string, s3: string)
    ensures Document(s1, s2, s3) == DocHead + s1 + SectionGap + s2 + SectionGap + s3 + DocTail
  {
    var a1 := DocHead + s1;
    var a2 := a1 + SectionGap;
    var a3 := a2 + s2;
    var a4 := a3 + SectionGap;
    var a5 := a4 + s3;
    var a6 := a5 + DocTail;
    Assoc("\n", DocHead, s1);
    Assoc("\n", a1, SectionGap);
    Assoc("\n", a2, s2);
    Assoc("\n", a3, SectionGap);
    Assoc("\n", a4, s3);
    Assoc("\n", a5, DocTail);
    assert DocHead[0] == '<';
    assert a6[0] == '<';
    assert DocTail[|DocTail| - 1] == '>';
    assert a6[|a6| - 1] == '>';
    TrimPadded("\n", a6, "\n  ");
  }

  /** Every section, of either body, is built from the same shown fields: the HTML rows of
      a section are its fields in the order the text lists them. */
  lemma RowsFollowShownFields(f: ContactForm)
    ensures |InterestRows(f)| == |InterestShown(f)| && |ContactRows(f)| == |ContactShown(f)| && |BusinessRows(f)| == |BusinessShown(f)|
    ensures forall i :: 0 <= i < |InterestShown(f)| ==> InterestRows(f)[i] == Row(f, InterestShown(f)[i])
    ensures forall i :: 0 <= i < |ContactShown(f)| ==> ContactRows(f)[i] == Row(f, ContactShown(f)[i])
    ensures forall i :: 0 <= i < |BusinessShown(f)| ==> BusinessRows(f)[i] == Row(f, BusinessShown(f)[i])
  {
    RowsOfFields(f, InterestShown(f));
    RowsOfFields(f, ContactShown(f));
    RowsOfFields(f, BusinessShown(f));
  }

  /** The section built from a list of fields holds the row of each of them. */
  lemma RowInSection(f: ContactForm, title: string, flds: seq<FieldName>, fld: FieldName)
    requires fld in flds
    ensures Occurs(Row(f, fld), Section(title, RowsOf(f, flds)))
  {
    var j :| 0 <= j < |flds| && flds[j] == fld;
    RowsOfFields(f, flds);
    assert RowsOf(f, flds)[j] == Row(f, fld);
  }

  /** Whatever occurs in one of three pieces occurs in the pieces laid out between a
      head, two gaps and a tail. */
  lemma InLayout(h: string, s1: string, g: string, s2: string, s3: string, t: string, m: string)
    requires Occurs(m, s1) || Occurs(m, s2) || Occurs(m, s3)
    ensures Occurs(m, h + s1 + g + s2 + g + s3 + t)
  {
    if Occurs(m, s1) {
      Within(h, s1, g + s2 + g + s3 + t, m);
      assert h + s1 + g + s2 + g + s3 + t == h + s1 + (g + s2 + g + s3 + t);
    } else if Occurs(m, s2) {
      Within(h + s1 + g, s2, g + s3 + t, m);
      assert h + s1 + g + s2 + g + s3 + t == (h + s1 + g) + s2 + (g + s3 + t);
    } else {
      Within(h + s1 + g + s2 + g, s3, t, m);
    }
  }

  /** Whatever occurs in one of the three sections occurs in the document. */
  lemma InDocument(s1: string, s2: string, s3: string, m: string)
    requires Occurs(m, s1) || Occurs(m, s2) || Occurs(m, s3)
    ensures Occurs(m, Document(s1, s2, s3))
  {
    DocumentShape(s1, s2, s3);
    InLayout(DocHead, s1, SectionGap, s2, s3, DocTail, m);
  }

  /** Every field a section shows has its row, value escaped, in the HTML body: the
      counterpart of the text body's `ShownFieldsInText`. */
  lemma RowsInHtml(f: ContactForm, fld: FieldName)
    requires fld in InterestShown(f) + ContactShown(f) + BusinessShown(f)
    ensures Occurs(Row(f, fld), HtmlBody(f))
  {
    if fld in InterestShown(f) {
      RowInSection(f, InterestTitle, InterestShown(f), fld);
    } else if fld in ContactShown(f) {
      RowInSection(f, ContactTitle, ContactShown(f), fld);
    } else {
      RowInSection(f, BusinessTitle, BusinessShown(f), fld);
    }
    InDocument(Section(InterestTitle, InterestRows(f)), Section(ContactTitle, ContactRows(f)),
      Section(BusinessTitle, BusinessRows(f)), Row(f, fld));
  }

  /** Which sections the HTML body has: the contact section always, the interest section
      only when an interest field was filled in, the business section only when a business
      field was. */
  lemma HtmlSections(f: ContactForm)
    ensures Section(ContactTitle, ContactRows(f)) != ""
    ensures Section(InterestTitle, InterestRows(f)) == "" <==> NoInterest(f)
    ensures Section(BusinessTitle, BusinessRows(f)) == "" <==> !HasBusiness(f)
  {
    RowsFollowShownFields(f);
  }

  /** The two bodies disagree on an empty interest section: the HTML body drops it, the
      text body keeps its header and shows the placeholder.  They agree on the business
      section, which both drop. */
  lemma InterestAsymmetry(f: ContactForm)
    ensures NoInterest(f) ==> Section(InterestTitle, InterestRows(f)) == "" && TextLines(f)[0] == InterestHeader
                              && Placeholder in InterestLines(f)
    ensures Section(InterestTitle, InterestRows(f)) == "" <==> Placeholder in InterestLines(f)
    ensures Section(BusinessTitle, BusinessRows(f)) == "" <==> BusinessLines(f) == []
  {
    HtmlSections(f);
    TextFrame(f);
    PlaceholderIffNoInterest(f);
  }

  /** Submitted values reach the markup only escaped: a value cell holds none of `< > " '`
      of its own, and unescaping it gives back exactly what is displayed.  The message may
      hold `<br>` tags and nothing else, and undoing the line breaks and the escaping gives
      back the message. */
  lemma ShownIsEscaped(f: ContactForm, fld: FieldName)
    ensures fld != Message ==>
      (forall i :: 0 <= i < |Shown(f, fld)| ==> !Markup(Shown(f, fld)[i])) && UnescapeHtml(Shown(f, fld)) == Display(f, fld)
    ensures fld == Message ==>
      (forall i :: 0 <= i < |Shown(f, fld)| && Shown(f, fld)[i] == '<' ==> StartsWith(Shown(f, fld)[i..], "<br>"))
      && UnescapeHtml(UnbreakLines(Shown(f, fld))) == f.message
  {
    if fld != Message {
      UnescapeEscape(Display(f, fld));
    }
  }
}
