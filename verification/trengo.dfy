/** The contact details both ticket handlers extract from a Trengo ticket:
    the name split into first and last name, and the fields defaulting to
    `''`. The two deployments differ only in how they pick `ticketId`, which
    each handler adds itself. */
module Trengo {
  import opened Js
  import opened Proxy

  const TicketIdRequired: string := "ticketId is required"
  const TrengoKeyMissing: string := "Trengo API key not configured"
  const TicketFetchFailed: string := "Failed to fetch ticket from Trengo"

  /** `name?.split(' ')[0] || ''` and `name?.split(' ').slice(1).join(' ') || ''`.
      An absent or `null` name gives two empty strings; a name that is not a
      string has no `split` method, so calling it throws. */
  function NameParts(name: Option<Json>): (r: Eval<(string, string)>)
    ensures Nullish(name) ==> r == Value(("", ""))
    ensures !Nullish(name) && !name.value.JStr? ==> r == Thrown(TypeErrorMessage)
    ensures name.Some? && name.value.JStr? ==> (
      var s := name.value.s;
      && r.Value?
      && ' ' !in r.get.0
      && (' ' in s ==> r.get.0 + " " + r.get.1 == s)
      && (' ' !in s ==> r.get == (s, "")))
  {
    match name
    case None => Value(("", ""))
    case Some(JNull) => Value(("", ""))
    case Some(JStr(s)) =>
      var parts := Split(s, ' ');
      JoinSplit(s, ' ');
      SplitCount(s, ' ');
      SplitPiecesLackSeparator(s, ' ');
      assert |parts| > 1 ==> Join(parts, ' ') == parts[0] + " " + Join(parts[1..], ' ');
      // `|| ''` maps an empty piece to `''`, which leaves every string as it is.
      Value((parts[0], Join(parts[1..], ' ')))
    case Some(_) => Thrown(TypeErrorMessage)
  }

  /** The `contactInfo` keys both handlers fill from the ticket alone. */
  const ContactKeys: set<string> := {"firstName", "lastName", "email", "phone", "company", "ticketSubject"}

  /** The contact details of a ticket reply, without `ticketId`. Reading
      `ticketData.contact` throws when the reply is `null`, and splitting
      throws when the contact's name is not a string. */
  function ContactInfo(ticketData: Json): (r: Eval<map<string, Json>>)
    ensures r.Thrown? <==> ticketData == JNull || NameParts(OptionalMember(Field(ticketData, "contact"), "name")).Thrown?
    ensures r.Value? ==> (
      var contact := Field(ticketData, "contact");
      var name := NameParts(OptionalMember(contact, "name")).get;
      && r.get.Keys == ContactKeys
      && r.get["firstName"] == JStr(name.0)
      && r.get["lastName"] == JStr(name.1)
      && r.get["email"] == OrElse(OptionalMember(contact, "email"), JStr(""))
      && r.get["phone"] == OrElse(OptionalMember(contact, "phone"), JStr(""))
      && r.get["company"] == OrElse(OptionalMember(contact, "company"), JStr(""))
      && r.get["ticketSubject"] == OrElse(Field(ticketData, "subject"), JStr("")))
  {
    var contact :- Member(Some(ticketData), "contact");
    var name :- NameParts(OptionalMember(contact, "name"));
    Value(map[
      "firstName" := JStr(name.0),
      "lastName" := JStr(name.1),
      "email" := OrElse(OptionalMember(contact, "email"), JStr("")),
      "phone" := OrElse(OptionalMember(contact, "phone"), JStr("")),
      "company" := OrElse(OptionalMember(contact, "company"), JStr("")),
      "ticketSubject" := OrElse(Field(ticketData, "subject"), JStr(""))
    ])
  }

  /** The ticket reply, read: a non-ok reply keeps its status with a fixed
      message (its body is only logged), a rejected fetch is caught as a 500. */
  function Fetched(reply: Reply): (o: Outcome<Json>)
    ensures reply.Ok? ==> o == Proceed(reply.body)
    ensures reply.NotOk? ==> o == Fail(reply.status, TicketFetchFailed)
    ensures reply.Throws? ==> o == Fail(500, reply.reason)
  {
    match reply
    case Ok(body) => Proceed(body)
    case NotOk(status, _) => Fail(status, TicketFetchFailed)
    case Throws(reason) => Fail(500, reason)
  }

  /** Splitting text that starts with a separator-free word and a separator
      yields that word followed by the pieces of the rest. */
  lemma {:induction false} SplitAfterFirst(a: string, b: string, sep: char)
    requires sep !in a
    ensures Split(a + [sep] + b, sep) == [a] + Split(b, sep)
    decreases |a|
  {
    var s := a + [sep] + b;
    if |a| == 0 {
      assert s == [sep] + b && s[1..] == b;
    } else {
      assert s[0] == a[0] && s[1..] == a[1..] + [sep] + b;
      SplitAfterFirst(a[1..], b, sep);
      assert [a[0]] + a[1..] == a;
    }
  }

  /** The first name is exactly the text before the first space and the last
      name exactly the text after it, spaces included: for "Jane Mary Doe"
      they are "Jane" and "Mary Doe". */
  lemma {:induction false} NamePartsAtFirstSpace(first: string, rest: string)
    requires ' ' !in first
    ensures NameParts(Some(JStr(first + " " + rest))) == Value((first, rest))
  {
    SplitAfterFirst(first, rest, ' ');
    JoinSplit(rest, ' ');
    assert ([first] + Split(rest, ' '))[1..] == Split(rest, ' ');
  }
}
