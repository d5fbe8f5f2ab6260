/** Checking a login against the stored accounts. The accounts arrive as a
    map from email to account; reading them from their file is not part of
    this model. */
module Accounts {
  import opened Prices

  /** What is stored per registered email. */
  datatype Account = Account(name: string, password: string, country: string)

  /** The account to log in as: present iff the email is registered and the
      given password equals the stored one exactly. */
  function VerifyUser(users: map<string, Account>, email: string, password: string): (r: Option<Account>)
    ensures r.Some? <==> email in users && users[email].password == password
    ensures r.Some? ==> r.value == users[email]
  {
    if email in users && users[email].password == password then Some(users[email]) else None
  }
}
