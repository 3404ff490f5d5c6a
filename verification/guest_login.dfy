/**
 * `frontend/src/components/Login.jsx`: the add-requests that replay the
 * guest cart to the backend after a login, the login reply, the error text
 * and the redirect choice. The loop that sends the requests and the storage
 * writes are `GuestSession.Session.MergeGuestCart` and
 * `GuestSession.Session.SubmitLogin`.
 */
module GuestLogin {
  import opened Common
  import opened GuestModel

  /** The address whose login goes to the dashboard. */
  const AdminEmail: string := "sridhar314507@gmail.com"

  /** What the `/auth/login` call gave back: nothing usable (the fetch or the
      JSON decoding threw), or a response with its `ok` flag and body fields. */
  datatype LoginReply =
    | NoReply
    | Reply(ok: bool, token: Option<string>, name: Option<string>,
            email: Option<string>, msg: Option<string>)

  /** The add-request that replays one guest line:
      `{productId: item._id, qty: item.quantity}` with the given bearer token. */
  function MergeRequest(token: string, line: Line): Request {
    AddItem(token, line.id, line.quantity)
  }

  /** The requests the merge sends: one per guest line, in stored order,
      each carrying the given token, the line's id and its quantity. */
  function MergeRequests(token: string, lines: seq<Line>): (r: seq<Request>)
    ensures |r| == |lines|
    ensures forall i :: 0 <= i < |lines| ==>
              r[i].AddItem? && r[i].token == token
              && r[i].productId == lines[i].id && r[i].qty == lines[i].quantity
  {
    if lines == [] then [] else [MergeRequest(token, lines[0])] + MergeRequests(token, lines[1..])
  }

  /** Sending the requests for one more line extends the sequence by that line's request. */
  lemma {:induction false} MergeRequestsSnoc(token: string, lines: seq<Line>, line: Line)
    ensures MergeRequests(token, lines + [line]) == MergeRequests(token, lines) + [MergeRequest(token, line)]
    decreases |lines|
  {
    if lines == [] {
      assert lines + [line] == [line];
    } else {
      assert (lines + [line])[1..] == lines[1..] + [line];
      MergeRequestsSnoc(token, lines[1..], line);
    }
  }

  /** Every guest quantity reaches the backend: the quantities carried by the
      merge requests are the guest lines' own quantities. */
  lemma MergeCarriesQuantities(token: string, lines: seq<Line>)
    requires HaveQuantities(lines)
    ensures forall i :: 0 <= i < |lines| ==>
              MergeRequests(token, lines)[i].qty == Some(QtyOf(lines[i]))
  {
  }

  /** `loginData.msg || "Login failed"` */
  function FailureText(msg: Option<string>): (e: string)
    ensures Truthy(msg) ==> e == msg.value
    ensures !Truthy(msg) ==> e == "Login failed"
  {
    if Truthy(msg) then msg.value else "Login failed"
  }

  /** The redirect after a successful login: `/dashboard` exactly when the
      reply's email is the admin address, otherwise `/`. */
  function Destination(email: Option<string>): (r: string)
    ensures r == "/dashboard" <==> email == Some(AdminEmail)
    ensures r != "/dashboard" ==> r == "/"
  {
    if email == Some(AdminEmail) then "/dashboard" else "/"
  }

  /** The session keys written by a successful login; a field missing from
      the reply is stored as the text "undefined". */
  function LoggedIn(st: Store, reply: LoginReply): (r: Store)
    requires reply.Reply?
    ensures r.guestCart == st.guestCart
    ensures r.token == Some(StoredText(reply.token))
    ensures r.username == Some(StoredText(reply.name)) && r.email == Some(StoredText(reply.email))
  {
    st.(token := Some(StoredText(reply.token)), username := Some(StoredText(reply.name)),
        email := Some(StoredText(reply.email)))
  }
}
