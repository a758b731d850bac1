/** The stores the hierarchy builder reads: user accounts and money transfers.
    The database queries of the controller become pure lookups over these values. */
module Ledger {

  /** Account ids; the controller compares them as strings. */
  type AccountId = string

  /** A user account: display name and standalone balance. */
  datatype Account = Account(name: string, balance: int)

  /** One money transfer from `sender` to `receiver`. */
  datatype Transfer = Transfer(sender: AccountId, receiver: AccountId, amount: int)

  /** The user collection (looked up by id) and the transfer collection (in its natural order). */
  datatype Store = Store(users: map<AccountId, Account>, transfers: seq<Transfer>)

  /** The one error the builder raises itself: a looked-up account does not exist. */
  datatype Error = NotFound(id: AccountId)

  datatype Result<T> = Ok(value: T) | Err(error: Error)

  /** The transfers sent by `id`, in store order: the query `Transaction.find({sender: id})`. */
  function Outgoing(transfers: seq<Transfer>, id: AccountId): (out: seq<Transfer>)
    ensures |out| <= |transfers|
    ensures forall t :: t in out <==> t in transfers && t.sender == id
  {
    if transfers == [] then []
    else (if transfers[0].sender == id then [transfers[0]] else []) + Outgoing(transfers[1..], id)
  }

  /** The query keeps every matching transfer as often as the store holds it. */
  lemma {:induction false} OutgoingCounts(transfers: seq<Transfer>, id: AccountId)
    ensures forall t ::
      multiset(Outgoing(transfers, id))[t] == (if t.sender == id then multiset(transfers)[t] else 0)
  {
    if transfers != [] {
      OutgoingCounts(transfers[1..], id);
      assert transfers == [transfers[0]] + transfers[1..];
    }
  }

  /** The query keeps store order: it distributes over concatenation. */
  lemma {:induction false} OutgoingConcat(front: seq<Transfer>, back: seq<Transfer>, id: AccountId)
    ensures Outgoing(front + back, id) == Outgoing(front, id) + Outgoing(back, id)
  {
    if front == [] {
      assert front + back == back;
    } else {
      var head := if front[0].sender == id then [front[0]] else [];
      var rest := front[1..] + back;
      assert (front + back)[0] == front[0] && (front + back)[1..] == rest;
      OutgoingConcat(front[1..], back, id);
      calc {
        Outgoing(front + back, id);
        head + Outgoing(rest, id);
        head + (Outgoing(front[1..], id) + Outgoing(back, id));
        (head + Outgoing(front[1..], id)) + Outgoing(back, id);
        Outgoing(front, id) + Outgoing(back, id);
      }
    }
  }
}
