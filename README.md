# DoroLabs contact-form handler

A Dafny model of the Cloudflare Pages Function behind the DoroLabs website's contact
form (`functions/contact.ts`). The function has two entry points:

- The CORS preflight answer, `onRequestOptions`.
- The POST handler, `onRequestPost`. It first checks that the Resend API key is configured. Then it reads the submitted form, answers a filled honeypot field with a fake success, and refuses a blank name or an invalid email address. Finally it composes a notification (subject line, HTML body, plain-text body) and hands it to the Resend mail API. The provider's answer becomes a JSON reply.

The model is split into one module per concern:

| module | file | models |
|---|---|---|
| `Strings` | strings.dfy | `String.prototype.trim` over the ECMAScript white-space set, ASCII `toUpperCase`, `Array.prototype.join` |
| `Form` | form.dfy | the submission record and its extraction from the form data (`formData.get(k)?.toString() \|\| ''`) as `Extract`, the honeypot |
| `EmailAddress` | email.dfy | `isValidEmail` as `IsValidEmail`: the regular expression as a deterministic automaton, proved equal to the shape local@domain.tld |
| `Escaping` | escaping.dfy | `escapeHtml`, its inverse, and the message's newline-to-`<br>` step |
| `SubjectLine` | subject.dfy | the subject rule as `Subject`, and both service-code tables |
| `Fields` | fields.dfy | which fields each section shows, shared by both bodies, and lemmas about conditional pushes |
| `TextEmail` | text_body.dfy | `buildEmailText`, as the method `BuildEmailText` pushing lines and as the function `TextBody` built from the section-by-section reference functions |
| `HtmlEmail` | html_body.dfy | `buildEmailHtml`, as the method `BuildEmailHtml` pushing rows and as the function `HtmlBody`, with `buildSection` as `Section` and the trimmed page template as `Document` |
| `Handler` | handler.dfy | `onRequestOptions` as `Preflight` and `onRequestPost` as `HandlePost`, a decision from (API key, parsed form, provider outcome) to (response, request sent); its validation steps are the verdict `Check` |

The two body builders are the imperative part of the source: they push onto local
arrays under conditions. Here they are methods whose result is proved equal to a pure
function (`TextBody`, `HtmlBody`), which is built from a section-by-section reference view.
For the text body, each section's push method is proved to append exactly that section's
reference lines. For the HTML body, `InterestRowsByPushes`, `ContactRowsByPushes` and
`BusinessRowsByPushes` prove that the conditional pushes of each row collector give the
rows of that section's shown fields (`RowsOf`). The rest of the file is
expression-level and is modelled by functions and lemmas.

## Model

| member | source | states |
|---|---|---|
| Strings.TrimStart | functions/contact.ts:183 | the result is a suffix of the input that does not start with white space, and everything dropped before it is white space |
| Strings.TrimEnd | functions/contact.ts:183 | the result is a prefix of the input that does not end with white space, and everything dropped after it is white space |
| Strings.Trim | functions/contact.ts:183 | the trimmed string neither starts nor ends with white space, and it is empty exactly when the input is all white space |
| Strings.TrimPadded | functions/contact.ts:276 | trimming white-space padding around an unpadded non-empty string gives back that string |
| Strings.Upper | functions/contact.ts:117 | upper-casing keeps the length and maps every ASCII lower-case letter to its capital, leaving every other character |
| Form.Field | functions/contact.ts:71-82 | a field's value is non-empty exactly when the key is present with a non-empty value, and is then that value |
| Form.ExtractSubmitted | functions/contact.ts:70-83 | a form carrying each field of a record under its own name is read back as exactly that record |
| Form.ExtractIgnoresOtherKeys | functions/contact.ts:70-83 | keys other than the twelve field names do not change the record |
| EmailAddress.PatternMeansShape | functions/contact.ts:182 | the automaton accepts a string exactly when it is local@domain.tld with three non-empty parts free of white space and `@` |
| EmailAddress.RunLocal | functions/contact.ts:182 | from the local-part state, the automaton accepts exactly the strings that split at an `@` into a valid local part and a valid domain tail |
| EmailAddress.ValidMeansShape | functions/contact.ts:181-184 | `isValidEmail` holds exactly when the trimmed address splits as local@domain.tld |
| EmailAddress.ShapeIsValid | functions/contact.ts:181-184 | every such address, padded with white space on either side, is valid |
| EmailAddress.ValidHasOneAt | functions/contact.ts:181-184 | a valid trimmed address holds exactly one `@` |
| EmailAddress.ValidHasNoSpace | functions/contact.ts:181-184 | a valid trimmed address holds no white space and does not start with `@` |
| EmailAddress.ValidHasDot | functions/contact.ts:181-184 | a valid trimmed address has a `.` somewhere after its `@` |
| Escaping.EscapeHtml | functions/contact.ts:186-195 | the escaped text holds no `<`, `>`, `"` or `'`, every `&` in it begins one of the five entities, and it is no shorter than the input |
| Escaping.UnescapeEscape | functions/contact.ts:186-195 | decoding the five entities recovers the input exactly |
| Escaping.UnescapeEscapeChar | functions/contact.ts:187-194 | decoding undoes the replacement of one character, whatever follows it |
| Escaping.EscapeInjective | functions/contact.ts:186-195 | two texts with the same escaped form are equal |
| Escaping.EscapePlain | functions/contact.ts:194 | text without reserved characters is left unchanged |
| Escaping.BreakLines | functions/contact.ts:242 | after the newline replacement no newline is left, and no quote appears that was not in the input |
| Escaping.BreakLinesOfTagFree | functions/contact.ts:242 | on text without `<`, every `<` of the result begins `<br>`, and undoing the replacement gives back the text |
| Escaping.MessageMarkup | functions/contact.ts:242 | the message markup holds no quote or newline, its only tags are `<br>`, and undoing the breaks and then the escaping gives back the message |
| Escaping.EscapingAfterBreakingShowsTheTag | functions/contact.ts:242 | the order matters: escaping after breaking would show `&lt;br&gt;`, while the source's order yields a real `<br>` |
| SubjectLine.ServiceNames | functions/contact.ts:119-126 | the subject table gives the five fixed names, the body table its five names, and any other code passes through unchanged |
| SubjectLine.TablesDifferOnlyInNames | functions/contact.ts:119-125 | both tables have exactly the five known codes as keys, and they name a code alike exactly when it is not "seo", "reminders" or "general" |
| SubjectLine.ServiceNameNonEmpty | functions/contact.ts:126 | a non-empty code never yields an empty name |
| SubjectLine.PackageWins | functions/contact.ts:116-117 | with a package selected, the subject is "New " + upper-cased package + " Package Lead – DoroLabs", whatever the other fields say |
| SubjectLine.ServiceBeatsHints | functions/contact.ts:118-127 | with no package but a selected service, the subject is "New Lead (" + the service's short name + ") – DoroLabs", whatever the free-text fields say |
| SubjectLine.InterestBeatsService | functions/contact.ts:128-129 | with neither package nor selected service, a non-empty interest is the bracketed hint, whatever the form's service field holds |
| SubjectLine.ServiceFieldAsHint | functions/contact.ts:128-129 | with no package, selected service or interest, a non-empty service field is the bracketed hint |
| SubjectLine.FallbackSubject | functions/contact.ts:130-131 | with none of the four routing fields filled in, the subject is exactly "New Lead – DoroLabs" |
| SubjectLine.SubjectDependsOnlyOnRouting | functions/contact.ts:115-132 | the subject is determined by package, selected service, interest and service alone |
| SubjectLine.SubjectShape | functions/contact.ts:115-132 | every subject starts with "New " and ends with the brand, except that a bracketed hint follows the brand when only interest or service is given |
| SubjectLine.SubjectExample | functions/contact.ts:128-129 | an illustration on one input, not a general contract: a form with only the interest "web" gets "New Lead – DoroLabs [web]" |
| Fields.InterestShown | functions/contact.ts:200-223 | the interest section shows exactly the non-empty package, selected-service, interest, service and budget fields, and is empty exactly when all of them are |
| Fields.ContactShown | functions/contact.ts:226-231 | the contact section shows name and email first, and the phone exactly when it is given |
| Fields.BusinessShown | functions/contact.ts:234-243 | the business section shows exactly the non-empty company, website and message fields, and is empty exactly when all of them are |
| TextEmail.BuildEmailText | functions/contact.ts:279-333 | the method's result is `TextBody(f)`: the reference interest, contact and business sections in that order, then a rule and the footer, joined by newlines |
| TextEmail.PushInterestSection | functions/contact.ts:283-304 | pushes the interest header, rule, the filled-in field lines, the placeholder when none and a blank line, exactly the reference lines `InterestLines`: one line per shown field, the placeholder exactly when none is shown |
| TextEmail.PushContactSection | functions/contact.ts:307-312 | appends exactly the reference lines `ContactLines`: header, rule, name, email, the phone when given and a blank line |
| TextEmail.PushBusinessSection | functions/contact.ts:315-326 | appends exactly the reference lines `BusinessLines`: nothing unless company, website answer or message is given, the message after a blank line and a "Message:" line |
| TextEmail.BusinessLines | functions/contact.ts:315-326 | the business section is present exactly when one of its fields is filled in, and then begins with its header and ends with a blank line |
| TextEmail.InterestPushedAppends | functions/contact.ts:283-304 | the source's conditional pushes of the interest section append exactly its reference lines: header, rule, one line per shown field, placeholder exactly when none, blank line |
| TextEmail.ContactPushedAppends | functions/contact.ts:307-312 | the source's pushes of the contact section append exactly its reference lines |
| TextEmail.BusinessPushedAppends | functions/contact.ts:315-326 | when a business field is given, the source's guarded pushes of the business section append exactly its reference lines |
| TextEmail.TextFrame | functions/contact.ts:283-284 | the text body always opens with the interest header and a rule, even with no interest given, and always ends with a rule and the footer |
| TextEmail.PlaceholderIffNoInterest | functions/contact.ts:301-303 | the placeholder line appears in the interest section exactly when none of its fields is filled in |
| TextEmail.ShownFieldsInText | functions/contact.ts:285-323 | every line of every shown field is among the text body's lines and occurs in the joined text body, with the value verbatim |
| TextEmail.MessageVerbatim | functions/contact.ts:320-324 | a filled-in message appears verbatim on the line right after "Message:" |
| TextEmail.ContactFrame | functions/contact.ts:307-312 | the contact section is always present, with the name and email lines right after its rule |
| Strings.JoinContains | functions/contact.ts:252 | every part occurs, as a contiguous piece, in the joined string |
| HtmlEmail.Section | functions/contact.ts:246-255 | a section is empty exactly when its row list is; otherwise it opens with the section frame around its title and holds each of its rows |
| HtmlEmail.BuildEmailHtml | functions/contact.ts:197-277 | the method's result is `HtmlBody(f)`, built from the three collected row lists |
| HtmlEmail.CollectInterestRows | functions/contact.ts:199-223 | the pushes of the interest rows give one row per shown interest field, in order |
| HtmlEmail.CollectContactRows | functions/contact.ts:226-231 | the pushes of the contact rows give the name, email and optional phone rows |
| HtmlEmail.CollectBusinessRows | functions/contact.ts:234-243 | the pushes of the business rows give one row per shown business field, in order |
| HtmlEmail.RowsOfFields | functions/contact.ts:199-243 | the row list has one row per shown field, and the i-th row is that field's row |
| HtmlEmail.RowsFollowShownFields | functions/contact.ts:199-243 | each section's rows correspond one to one, in order, to the fields it shows |
| HtmlEmail.DocumentShape | functions/contact.ts:257-276 | trimming the template removes exactly its leading newline and trailing indentation, leaving head, sections and tail |
| HtmlEmail.RowInSection | functions/contact.ts:246-255 | the section built from a list of fields holds the row of each of them |
| HtmlEmail.InDocument | functions/contact.ts:257-276 | whatever occurs in one of the three sections occurs in the trimmed document |
| HtmlEmail.RowsInHtml | functions/contact.ts:199-268 | every field a section shows has its row, with the escaped value, in the HTML body, matching `TextEmail.ShownFieldsInText` for the text body |
| HtmlEmail.HtmlSections | functions/contact.ts:246-268 | the contact section is always emitted; the interest section is dropped exactly when no interest field is set; the business section is dropped exactly when no business field is set |
| HtmlEmail.InterestAsymmetry | functions/contact.ts:247 | with no interest given, the HTML drops its interest section while the text keeps its header and shows the placeholder; both drop an empty business section |
| HtmlEmail.ShownIsEscaped | functions/contact.ts:202-242 | every value cell is escaped text that decodes to what is displayed, and the message's only tags are `<br>`, undone to give back the message |
| Handler.Preflight | functions/contact.ts:42-52 | the preflight answer is an empty 204 whose headers are exactly the POST headers without the content type, plus a cache age of 86400 seconds: origin, methods "POST, OPTIONS", allowed header "Content-Type" |
| Handler.ConfigurationFirst | functions/contact.ts:59-65 | a missing API key gives 500 "Server configuration error" whatever the form holds |
| Handler.HoneypotFakesSuccess | functions/contact.ts:86-93 | a filled honeypot gives 200 with success and nothing more, before name and email are checked |
| Handler.BlankNameRefused | functions/contact.ts:96-101 | a name made only of white space is refused like a missing one |
| Handler.AcceptIffValid | functions/contact.ts:59-108 | a form is accepted exactly when the key is set, it parsed, the honeypot is empty, the trimmed name is non-empty and the email is valid |
| Handler.SentIffAccepted | functions/contact.ts:110-150 | a provider request is sent exactly for accepted forms, built from the extracted record with the submitted email, untrimmed, as reply address |
| Handler.InvalidEmailRefused | functions/contact.ts:96-108 | with the key set, no honeypot and a non-blank name, an address whose trimmed form is not local@domain.tld gets the invalid-email verdict |
| Handler.RefusalMessages | functions/contact.ts:96-108 | the two refusals are 400 "Name is required" and 400 "Valid email is required", whatever the provider would say |
| EmailAddress.ShapelessIsInvalid | functions/contact.ts:181-184 | an address whose trimmed form is not local@domain.tld is not valid |
| Handler.ProviderMessages | functions/contact.ts:158-177 | for an accepted form, a failed reply gives 500 "Failed to send message", and a network failure or unreadable reply gives 500 "An unexpected error occurred" |
| Handler.ResponseShape | functions/contact.ts:59-178 | every POST response carries the CORS headers and a JSON reply with one of the fixed messages; refusals are exactly the 400s; an accepted form succeeds exactly when the provider answers ok, passing its id back |

## Left out

- Network, runtime and logging: `fetch`, `request.formData()`, `Response` construction and `console` logging are not modelled. The provider's answer is a parameter with three cases. `Unreachable` means the call threw. `NotJson` means reading the reply threw: either the body is not JSON, or it is JSON `null` on an ok reply, where reading `.id` throws. `Answered` carries the `ok` flag and the id, if the body has one. JSON `null` on a failed reply is `Answered(false, None)`, because the id is not read then. A form that cannot be parsed is the value `None`.
- JSON text: the reply is the datatype `Reply`. `JSON.stringify` leaves out an undefined `id`; this appears as `None`. A provider id that is not a string (a number, say) is passed back unchanged by the source. The model's id is a string.
- Missing key: an unset `RESEND_API_KEY` is modelled as the empty string, which is falsy like `undefined`.
- File entries: `formData.get` can return a `File`, which the source turns into a string with `toString()`. The model's form data holds strings only.
- Strings.Upper: only ASCII letters are upper-cased. JavaScript's `toUpperCase` also maps other scripts and can lengthen a string (`ß` to `SS`).
- Strings: strings are sequences of characters. UTF-16 surrogate pairs, which JavaScript's regular expressions and `trim` see as two code units, are not modelled.
- SubjectLine.ServiceName: the service tables are finite maps. A JavaScript object literal also answers inherited keys such as `constructor`, `toString` or `__proto__` with a function or an object. For such a `selected_service`, the source's `escapeHtml` then throws (lines 212-213), so it answers 500 "An unexpected error occurred" and sends nothing; the model passes the code through and sends.
- Template text: the CSS and markup of `buildSection` and the page template are string constants. The lemmas say nothing about their content beyond section presence, order and trimming.
- Section layout: a section layout shared by the two bodies, with every section shown only when populated, is not what the code does. The text body always prints the interest header, with a placeholder when no interest field is set, while the HTML body drops that section. The model follows the code, and `HtmlEmail.InterestAsymmetry` states the difference.
