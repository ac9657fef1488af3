/** The browser's `sessionStorage` as the services use it: one item, under the
    key `sales_order_credentials`, holding the JSON text of an object with the
    Base64-encoded user name and password. */
module SessionStorage {
  import opened Common
  import opened Js

  /** What `JSON.parse` makes of a stored item: a value, or a `SyntaxError`
      (which every reader catches). */
  datatype StoredItem = Parsed(value: Json) | Unparsable

  const CredentialsKey: string := "sales_order_credentials"

  /** `{ username, password }` */
  function CredentialsRecord(username: string, password: string): (v: Json)
    ensures Property(v, "username") == Some(JStr(username))
    ensures Property(v, "password") == Some(JStr(password))
  {
    assert "username" != "password" by { assert "username"[0] != "password"[0]; }
    LookupAppend([], "username", JStr(username), "username");
    LookupAppend([("username", JStr(username))], "password", JStr(password), "username");
    LookupAppend([("username", JStr(username))], "password", JStr(password), "password");
    assert [("username", JStr(username))] + [("password", JStr(password))]
        == [("username", JStr(username)), ("password", JStr(password))];
    JObj([("username", JStr(username)), ("password", JStr(password))])
  }

  const EmptyCredentials: Json := CredentialsRecord("", "")

  /** The stored credentials record: the parsed item, or the empty record
      when there is no item or it is not JSON. */
  function StoredCredentials(items: map<string, StoredItem>): (v: Json)
    ensures CredentialsKey in items && items[CredentialsKey].Parsed? ==> v == items[CredentialsKey].value
    ensures !(CredentialsKey in items && items[CredentialsKey].Parsed?) ==> v == EmptyCredentials
  {
    if CredentialsKey in items && items[CredentialsKey].Parsed? then items[CredentialsKey].value
    else EmptyCredentials
  }

  /** A user name and a password in plain text. */
  datatype Credentials = Credentials(username: string, password: string)

  /** `!!(stored.username && stored.password)`: both stored fields are truthy. */
  predicate HasBothFields(items: map<string, StoredItem>) {
    var stored := StoredCredentials(items);
    TruthyOpt(Property(stored, "username")) && TruthyOpt(Property(stored, "password"))
  }

  /** The record just stored is the one read back, field by field. */
  lemma StoredRecord(items: map<string, StoredItem>, u: string, p: string)
    ensures var stored := StoredCredentials(items[CredentialsKey := Parsed(CredentialsRecord(u, p))]);
      Property(stored, "username") == Some(JStr(u)) && Property(stored, "password") == Some(JStr(p))
  {
    var stored := StoredCredentials(items[CredentialsKey := Parsed(CredentialsRecord(u, p))]);
    assert stored == CredentialsRecord(u, p);
  }

  /** `sessionStorage` itself. */
  class Storage {
    var items: map<string, StoredItem>

    constructor()
      ensures items == map[]
    {
      items := map[];
    }

    /** `setItem(key, JSON.stringify(value))`, as the reader will parse it. */
    method SetItem(key: string, value: Json)
      modifies this
      ensures items == old(items)[key := Parsed(value)]
    {
      items := items[key := Parsed(value)];
    }

    /** `removeItem(key)` */
    method RemoveItem(key: string)
      modifies this
      ensures items == old(items) - {key}
    {
      items := items - {key};
    }
  }
}
