/** The newsletter subscription handler (pages/api/subscribe.ts): an email is
    stored only when it is not stored yet. */
module SubscribeApi {
  import opened Wrappers
  import opened Text

  datatype Reply = Reply(status: int, message: string)

  const EmailRequired := "Correo necesario!"
  const AlreadySubscribed := "El correo electrónico ya está suscrito"
  const Subscribed := "Subscription successful"
  const ServerError := "Internal server error"

  /** Appending an email that is absent keeps a list of emails free of repetitions. */
  lemma {:induction false} AppendAbsentKeepsDistinct(emails: seq<string>, email: string)
    requires Distinct(emails) && email !in emails
    ensures Distinct(emails + [email])
  {
    var r := emails + [email];
    forall i, j | 0 <= i < j < |r|
      ensures r[i] != r[j]
    {
      if j == |emails| {
        assert r[i] == emails[i];
      } else {
        assert r[i] == emails[i] && r[j] == emails[j];
      }
    }
  }

  class Subscriptions {
    var emails: seq<string>

    /** Each email is subscribed at most once. */
    ghost predicate Valid()
      reads this
    {
      Distinct(emails)
    }

    constructor(initial: seq<string>)
      ensures emails == initial
      ensures Distinct(initial) ==> Valid()
    {
      emails := initial;
    }

    /** The whole handler; `None` is the absence of any answer, which is what
        a request with another method gets. `insertOk` says whether the insert succeeds. */
    method Handle(verb: string, email: Option<string>, insertOk: bool) returns (reply: Option<Reply>)
      modifies this
      ensures verb != "POST" ==> reply == None && emails == old(emails)
      ensures (verb == "POST" && !Truthy(email)) ==>
        reply == Some(Reply(400, EmailRequired)) && emails == old(emails)
      ensures (verb == "POST" && Truthy(email) && email.value in old(emails)) ==>
        reply == Some(Reply(400, AlreadySubscribed)) && emails == old(emails)
      ensures (verb == "POST" && Truthy(email) && email.value !in old(emails) && !insertOk) ==>
        reply == Some(Reply(500, ServerError)) && emails == old(emails)
      ensures (verb == "POST" && Truthy(email) && email.value !in old(emails) && insertOk) ==>
        reply == Some(Reply(200, Subscribed)) && emails == old(emails) + [email.value]
      ensures old(Valid()) ==> Valid()
    {
      reply := None;
      if verb == "POST" {
        if !Truthy(email) {
          return Some(Reply(400, EmailRequired));
        }
        var address := email.value;
        // findOne({ email })
        if address in emails {
          return Some(Reply(400, AlreadySubscribed));
        }
        if !insertOk {
          return Some(Reply(500, ServerError));
        }
        if Valid() {
          AppendAbsentKeepsDistinct(emails, address);
        }
        emails := emails + [address];
        reply := Some(Reply(200, Subscribed));
      }
    }
  }
}
