/**
 * `src/components/Login.jsx`: the mock credential lookup against the stored
 * `"users"` list, the session keys written on success and the redirect
 * choice. Performing the writes is `LocalSession.Session.SubmitLogin`.
 */
module LocalLogin {
  import opened Common
  import opened LocalModel

  predicate Matches(u: User, email: string, password: string) {
    u.email == email && u.password == password
  }

  /** `users.find(u => u.email === data.email && u.password === data.password)`:
      a user is found exactly when some stored user has that email and
      password, and it is the first such user in stored order. */
  function FindUser(users: seq<User>, email: string, password: string): (r: Option<User>)
    ensures r.Some? <==> exists i :: 0 <= i < |users| && Matches(users[i], email, password)
    ensures r.Some? ==> exists i :: 0 <= i < |users| && users[i] == r.value
                          && Matches(users[i], email, password)
                          && forall j :: 0 <= j < i ==> !Matches(users[j], email, password)
  {
    if users == [] then None
    else if Matches(users[0], email, password) then Some(users[0])
    else
      var r := FindUser(users[1..], email, password);
      assert forall i :: 1 <= i < |users| ==> users[i] == users[1..][i - 1];
      r
  }

  /** `toLowerCase` on one character; only ASCII letters change. */
  function LowerChar(c: char): char {
    if 'A' <= c <= 'Z' then (c as int + 32) as char else c
  }

  function Lower(s: string): string {
    seq(|s|, i requires 0 <= i < |s| => LowerChar(s[i]))
  }

  /** Where the page goes after a successful login: the dashboard exactly
      when the name, letter by letter in lower case, spells "sridhar";
      the home page otherwise. */
  function Destination(u: User): (r: string)
    ensures r == "/dashboard" || r == "/"
    ensures r == "/dashboard" <==>
              |u.name| == 7 && forall i :: 0 <= i < 7 ==> LowerChar(u.name[i]) == "sridhar"[i]
  {
    assert (|u.name| == 7 && forall i :: 0 <= i < 7 ==> LowerChar(u.name[i]) == "sridhar"[i])
           ==> Lower(u.name) == "sridhar";
    if Lower(u.name) == "sridhar" then "/dashboard" else "/"
  }

  /** The session keys written on success: the fixed token, the user's name
      and its role as stored text; the cart, orders and users keep what they
      held. */
  function LoggedIn(st: Store, u: User): (r: Store)
    ensures r.token == Some("dummy-token") && Truthy(r.token)
    ensures r.username == Some(u.name)
    ensures r.role == Some(StoredText(u.role))
    ensures r.cart == st.cart && r.orders == st.orders && r.users == st.users
  {
    st.(token := Some("dummy-token"), username := Some(u.name), role := Some(StoredText(u.role)))
  }

  /** The admin check ignores case: any mix of upper- and lower-case letters
      spelling "sridhar" goes to the dashboard, and no name of another length does. */
  lemma AdminNameAnyCase(u: User)
    ensures (|u.name| == 7 && forall i :: 0 <= i < 7 ==> u.name[i] == "sridhar"[i] || u.name[i] == "SRIDHAR"[i])
            ==> Destination(u) == "/dashboard"
    ensures |u.name| != 7 ==> Destination(u) == "/"
  {
    if |u.name| == 7 && forall i :: 0 <= i < 7 ==> u.name[i] == "sridhar"[i] || u.name[i] == "SRIDHAR"[i] {
      assert forall i :: 0 <= i < 7 ==> Lower(u.name)[i] == "sridhar"[i];
      assert Lower(u.name) == "sridhar";
    }
  }
}
