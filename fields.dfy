/** The fields both email bodies show, section by section and in the order the source
    pushes them (functions/contact.ts:199-243 and 283-324).  A field is shown when its
    value is non-empty; Name and Email are pushed unconditionally. */
module Fields {
  import opened Form

  datatype FieldName =
    | Package | Service | Interest | FormService | Budget
    | Name | Email | Phone
    | Company | Website | Message

  /** The submitted text behind a field. */
  function Value(f: ContactForm, fld: FieldName): string {
    match fld
    case Package => f.selectedPackage
    case Service => f.selectedService
    case Interest => f.interest
    case FormService => f.service
    case Budget => f.budget
    case Name => f.name
    case Email => f.email
    case Phone => f.phone
    case Company => f.company
    case Website => f.existingWebsite
    case Message => f.message
  }

  function Opt<T>(b: bool, xs: seq<T>): seq<T> {
    if b then xs else []
  }

  /** The interest section is empty exactly when none of its five fields was filled in. */
  predicate NoInterest(f: ContactForm) {
    f.selectedPackage == "" && f.selectedService == "" && f.interest == "" && f.service == "" && f.budget == ""
  }

  /** The business section has content exactly when one of its three fields was filled in. */
  predicate HasBusiness(f: ContactForm) {
    f.company != "" || f.existingWebsite != "" || f.message != ""
  }

  /** Package, selected service, interest, form service and budget, each when filled in. */
  function InterestShown(f: ContactForm): (r: seq<FieldName>)
    ensures forall x :: x in r <==> x in [Package, Service, Interest, FormService, Budget] && Value(f, x) != ""
    ensures r == [] <==> NoInterest(f)
  {
    Opt(f.selectedPackage != "", [Package]) + Opt(f.selectedService != "", [Service])
    + Opt(f.interest != "", [Interest]) + Opt(f.service != "", [FormService]) + Opt(f.budget != "", [Budget])
  }

  /** Name and email always, phone when filled in. */
  function ContactShown(f: ContactForm): (r: seq<FieldName>)
    ensures |r| >= 2 && r[0] == Name && r[1] == Email
    ensures Phone in r <==> f.phone != ""
  {
    [Name, Email] + Opt(f.phone != "", [Phone])
  }

  /** Company, website answer and message, each when filled in. */
  function BusinessShown(f: ContactForm): (r: seq<FieldName>)
    ensures forall x :: x in r <==> x in [Company, Website, Message] && Value(f, x) != ""
    ensures r == [] <==> !HasBusiness(f)
  {
    Opt(f.company != "", [Company]) + Opt(f.existingWebsite != "", [Website]) + Opt(f.message != "", [Message])
  }

  /** The blocks `block` renders for each field of `flds`, concatenated in order. */
  function Render<T>(flds: seq<FieldName>, block: FieldName -> seq<T>): seq<T> {
    if flds == [] then [] else block(flds[0]) + Render(flds[1..], block)
  }

  lemma {:induction false} RenderAppend<T>(a: seq<FieldName>, b: seq<FieldName>, block: FieldName -> seq<T>)
    ensures Render(a + b, block) == Render(a, block) + Render(b, block)
  {
    if a == [] {
      assert a + b == b;
    } else {
      assert (a + b)[0] == a[0] && (a + b)[1..] == a[1..] + b;
      RenderAppend(a[1..], b, block);
    }
  }

  lemma RenderOpt<T>(b: bool, x: FieldName, block: FieldName -> seq<T>)
    ensures Render(Opt(b, [x]), block) == Opt(b, block(x))
  {
    if b {
      assert [x][1..] == [];
    }
  }

  /** An item is rendered from a list of fields exactly when one of those fields renders it. */
  lemma {:induction false} RenderMember<T>(flds: seq<FieldName>, block: FieldName -> seq<T>, l: T)
    ensures l in Render(flds, block) <==> exists fld :: fld in flds && l in block(fld)
  {
    if flds != [] {
      RenderMember(flds[1..], block, l);
      assert forall fld :: fld in flds <==> fld == flds[0] || fld in flds[1..];
    }
  }

  lemma RenderInterest<T>(f: ContactForm, block: FieldName -> seq<T>)
    ensures Render(InterestShown(f), block) ==
      Opt(f.selectedPackage != "", block(Package)) + Opt(f.selectedService != "", block(Service))
      + Opt(f.interest != "", block(Interest)) + Opt(f.service != "", block(FormService))
      + Opt(f.budget != "", block(Budget))
  {
    var a, b, c, d, e :=
      Opt(f.selectedPackage != "", [Package]), Opt(f.selectedService != "", [Service]),
      Opt(f.interest != "", [Interest]), Opt(f.service != "", [FormService]), Opt(f.budget != "", [Budget]);
    RenderAppend(a + b + c + d, e, block);
    RenderAppend(a + b + c, d, block);
    RenderAppend(a + b, c, block);
    RenderAppend(a, b, block);
    RenderOpt(f.selectedPackage != "", Package, block);
    RenderOpt(f.selectedService != "", Service, block);
    RenderOpt(f.interest != "", Interest, block);
    RenderOpt(f.service != "", FormService, block);
    RenderOpt(f.budget != "", Budget, block);
  }

  lemma RenderContact<T>(f: ContactForm, block: FieldName -> seq<T>)
    ensures Render(ContactShown(f), block) == block(Name) + block(Email) + Opt(f.phone != "", block(Phone))
  {
    RenderAppend([Name, Email], Opt(f.phone != "", [Phone]), block);
    RenderOpt(f.phone != "", Phone, block);
    assert [Name, Email][1..] == [Email];
    assert [Email][1..] == [];
  }

  lemma RenderBusiness<T>(f: ContactForm, block: FieldName -> seq<T>)
    ensures Render(BusinessShown(f), block) ==
      Opt(f.company != "", block(Company)) + Opt(f.existingWebsite != "", block(Website))
      + Opt(f.message != "", block(Message))
  {
    var a, b, c :=
      Opt(f.company != "", [Company]), Opt(f.existingWebsite != "", [Website]), Opt(f.message != "", [Message]);
    RenderAppend(a + b, c, block);
    RenderAppend(a, b, block);
    RenderOpt(f.company != "", Company, block);
    RenderOpt(f.existingWebsite != "", Website, block);
    RenderOpt(f.message != "", Message, block);
  }

  /** A conditional push: the items so far, followed by `xs` when `b` holds. */
  function PushIf<T>(ls: seq<T>, b: bool, xs: seq<T>): seq<T> {
    if b then ls + xs else ls
  }

  lemma PushIfOpt<T>(ls: seq<T>, b: bool, xs: seq<T>)
    ensures PushIf(ls, b, xs) == ls + Opt(b, xs)
  {
    if !b {
      assert ls + [] == ls;
    }
  }

  /** A conditional push onto `ls + acc` extends the accumulated tail `acc`. */
  lemma PushAcc<T>(ls: seq<T>, acc: seq<T>, b: bool, x: seq<T>)
    ensures PushIf(ls + acc, b, x) == ls + (acc + Opt(b, x))
  {
    PushIfOpt(ls + acc, b, x);
    Assoc(ls, acc, Opt(b, x));
  }

  lemma Assoc<T>(a: seq<T>, b: seq<T>, c: seq<T>)
    ensures a + b + c == a + (b + c)
  {
  }

  /** Six conditional pushes after a header, then a closing line, append the header, the
      pushed blocks and the closing line, in that order. */
  lemma PushSix<T>(ls: seq<T>, h: seq<T>, b1: bool, x1: seq<T>, b2: bool, x2: seq<T>, b3: bool, x3: seq<T>,
                   b4: bool, x4: seq<T>, b5: bool, x5: seq<T>, b6: bool, x6: seq<T>, e: seq<T>)
    ensures PushIf(PushIf(PushIf(PushIf(PushIf(PushIf(ls + h, b1, x1), b2, x2), b3, x3), b4, x4), b5, x5), b6, x6) + e
         == ls + (h + Opt(b1, x1) + Opt(b2, x2) + Opt(b3, x3) + Opt(b4, x4) + Opt(b5, x5) + Opt(b6, x6) + e)
  {
    var a1 := h + Opt(b1, x1);
    var a2 := a1 + Opt(b2, x2);
    var a3 := a2 + Opt(b3, x3);
    var a4 := a3 + Opt(b4, x4);
    var a5 := a4 + Opt(b5, x5);
    var a6 := a5 + Opt(b6, x6);
    PushAcc(ls, h, b1, x1);
    PushAcc(ls, a1, b2, x2);
    PushAcc(ls, a2, b3, x3);
    PushAcc(ls, a3, b4, x4);
    PushAcc(ls, a4, b5, x5);
    PushAcc(ls, a5, b6, x6);
    Assoc(ls, a6, e);
  }

  /** Regrouping a header followed by five blocks. */
  lemma Gather<T>(h: seq<T>, p: seq<T>, s: seq<T>, i: seq<T>, f: seq<T>, b: seq<T>)
    ensures h + (p + s + i + f + b) == h + p + s + i + f + b
  {
    Assoc(h, p + s + i + f, b);
    Assoc(h, p + s + i, f);
    Assoc(h, p + s, i);
    Assoc(h, p, s);
  }

  /** Three conditional pushes after a header, then a closing line. */
  lemma PushThree<T>(ls: seq<T>, h: seq<T>, b1: bool, x1: seq<T>, b2: bool, x2: seq<T>, b3: bool, x3: seq<T>, e: seq<T>)
    ensures PushIf(PushIf(PushIf(ls + h, b1, x1), b2, x2), b3, x3) + e
         == ls + (h + (Opt(b1, x1) + Opt(b2, x2) + Opt(b3, x3)) + e)
  {
    var a1 := h + Opt(b1, x1);
    var a2 := a1 + Opt(b2, x2);
    var a3 := a2 + Opt(b3, x3);
    PushAcc(ls, h, b1, x1);
    PushAcc(ls, a1, b2, x2);
    PushAcc(ls, a2, b3, x3);
    Assoc(ls, a3, e);
    Assoc(h, Opt(b1, x1) + Opt(b2, x2), Opt(b3, x3));
    Assoc(h, Opt(b1, x1), Opt(b2, x2));
  }


  /** Five conditional pushes append the five optional blocks, in order. */
  lemma PushFive<T>(ls: seq<T>, b1: bool, x1: seq<T>, b2: bool, x2: seq<T>, b3: bool, x3: seq<T>,
                    b4: bool, x4: seq<T>, b5: bool, x5: seq<T>)
    ensures PushIf(PushIf(PushIf(PushIf(PushIf(ls, b1, x1), b2, x2), b3, x3), b4, x4), b5, x5)
         == ls + (Opt(b1, x1) + Opt(b2, x2) + Opt(b3, x3) + Opt(b4, x4) + Opt(b5, x5))
  {
    assert ls == ls + [];
    var a1 := [] + Opt(b1, x1);
    var a2 := a1 + Opt(b2, x2);
    var a3 := a2 + Opt(b3, x3);
    var a4 := a3 + Opt(b4, x4);
    PushAcc(ls, [], b1, x1);
    PushAcc(ls, a1, b2, x2);
    PushAcc(ls, a2, b3, x3);
    PushAcc(ls, a3, b4, x4);
    PushAcc(ls, a4, b5, x5);
    assert a1 == Opt(b1, x1);
  }

  /** Three conditional pushes append the three optional blocks, in order. */
  lemma PushTrio<T>(ls: seq<T>, b1: bool, x1: seq<T>, b2: bool, x2: seq<T>, b3: bool, x3: seq<T>)
    ensures PushIf(PushIf(PushIf(ls, b1, x1), b2, x2), b3, x3) == ls + (Opt(b1, x1) + Opt(b2, x2) + Opt(b3, x3))
  {
    assert ls == ls + [];
    var a1 := [] + Opt(b1, x1);
    var a2 := a1 + Opt(b2, x2);
    PushAcc(ls, [], b1, x1);
    PushAcc(ls, a1, b2, x2);
    PushAcc(ls, a2, b3, x3);
    assert a1 == Opt(b1, x1);
  }
}
