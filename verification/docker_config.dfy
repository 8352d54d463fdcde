// The payload of the image-pull Secret: dockerconfigjson in
// internal/helm/pullsecret.go.
module DockerConfig {
  import opened Bytes
  import Base64
  import JsonString
  import Json

  // The basic-auth pair (section 2 of RFC 7617).
  function UserPass(username: Bytes, password: Bytes): Bytes {
    username + [':' as int] + password
  }

  // The structures that are marshalled.
  function AuthEntry(username: Bytes, password: Bytes): Json.Value {
    Json.Object([(Ascii("username"), Json.Text(username)), (Ascii("password"), Json.Text(password)),
                 (Ascii("auth"), Json.Text(Base64.Encode(UserPass(username, password))))])
  }

  function Config(host: Bytes, username: Bytes, password: Bytes): Json.Value {
    Json.Object([(Ascii("auths"), Json.Object([(host, AuthEntry(username, password))]))])
  }

  function Dockerconfigjson(host: Bytes, username: Bytes, password: Bytes): Bytes {
    Json.Write(Config(host, username, password))
  }

  // What a container runtime reads for one registry host: the entry of that
  // name under "auths", with its auth field still encoded.
  datatype Entry = Entry(username: Bytes, password: Bytes, auth: Bytes)

  function TextAt(v: Json.Value, name: string): Option<Bytes> {
    match Json.Lookup(v, Ascii(name))
    case Some(Text(s)) => Some(s)
    case _ => None
  }

  function EntryFor(doc: Bytes, host: Bytes): Option<Entry> {
    match Json.Read(doc)
    case None => None
    case Some(v) =>
      match Json.Lookup(v, Ascii("auths"))
      case None => None
      case Some(auths) =>
        match Json.Lookup(auths, host)
        case None => None
        case Some(e) =>
          match (TextAt(e, "username"), TextAt(e, "password"), TextAt(e, "auth"))
          case (Some(username), Some(password), Some(auth)) => Some(Entry(username, password, auth))
          case _ => None
  }

  // Lower-case names stand for themselves, and these four are different.
  lemma NamesAreClean()
    ensures forall name :: name in {"auths", "username", "password", "auth"} ==> JsonString.Sanitize(Ascii(name)) == Ascii(name)
    ensures |Ascii("auth")| != |Ascii("username")| && Ascii("username") != Ascii("password") && |Ascii("auth")| != |Ascii("password")|
  {
    hide Ascii, JsonString.Sanitize;
    NameIsClean("auths");
    NameIsClean("username");
    NameIsClean("password");
    NameIsClean("auth");
    FirstByte("username");
    FirstByte("password");
  }

  lemma NameIsClean(name: string)
    ensures JsonString.Sanitize(Ascii(name)) == Ascii(name)
  {
    hide JsonString.Sanitize;
    JsonString.SanitizeAscii(Ascii(name));
  }

  lemma FirstByte(name: string)
    requires name != ""
    ensures Ascii(name)[0] == name[0] as int % 128
  {
  }

  function CleanEntry(username: Bytes, password: Bytes, auth: Bytes): Json.Value {
    Json.Object([(Ascii("username"), Json.Text(username)), (Ascii("password"), Json.Text(password)), (Ascii("auth"), Json.Text(auth))])
  }

  lemma CleanThree(n1: Bytes, v1: Json.Value, n2: Bytes, v2: Json.Value, n3: Bytes, v3: Json.Value)
    ensures Json.Clean(Json.Object([(n1, v1), (n2, v2), (n3, v3)]))
         == Json.Object([(JsonString.Sanitize(n1), Json.Clean(v1)), (JsonString.Sanitize(n2), Json.Clean(v2)),
                         (JsonString.Sanitize(n3), Json.Clean(v3))])
  {
    hide JsonString.Sanitize;
    var o := Json.Object([(n1, v1), (n2, v2), (n3, v3)]);
    assert Json.CleanFrom(o, 3) == [];
    assert Json.CleanFrom(o, 2) == [(JsonString.Sanitize(n3), Json.Clean(v3))];
    assert Json.CleanFrom(o, 1) == [(JsonString.Sanitize(n2), Json.Clean(v2))] + Json.CleanFrom(o, 2);
    assert Json.CleanFrom(o, 0) == [(JsonString.Sanitize(n1), Json.Clean(v1))] + Json.CleanFrom(o, 1);
  }

  lemma CleanOne(n: Bytes, v: Json.Value)
    ensures Json.Clean(Json.Object([(n, v)])) == Json.Object([(JsonString.Sanitize(n), Json.Clean(v))])
  {
    hide JsonString.Sanitize;
    var o := Json.Object([(n, v)]);
    assert Json.CleanFrom(o, 1) == [];
    assert Json.CleanFrom(o, 0) == [(JsonString.Sanitize(n), Json.Clean(v))] + Json.CleanFrom(o, 1);
  }

  lemma CleanConfig(host: Bytes, username: Bytes, password: Bytes)
    ensures Json.Clean(AuthEntry(username, password))
         == CleanEntry(JsonString.Sanitize(username), JsonString.Sanitize(password), Base64.Encode(UserPass(username, password)))
    ensures Json.Clean(Config(host, username, password))
         == Json.Object([(Ascii("auths"), Json.Object([(JsonString.Sanitize(host), Json.Clean(AuthEntry(username, password)))]))])
  {
    hide JsonString.Sanitize, Ascii, Json.CleanFrom;
    var auth := Base64.Encode(UserPass(username, password));
    NamesAreClean();
    Base64.EncodeIsAscii(UserPass(username, password));
    JsonString.SanitizeAscii(auth);
    CleanThree(Ascii("username"), Json.Text(username), Ascii("password"), Json.Text(password), Ascii("auth"), Json.Text(auth));
    CleanOne(host, AuthEntry(username, password));
    CleanOne(Ascii("auths"), Json.Object([(host, AuthEntry(username, password))]));
  }

  lemma FindThree(n1: Bytes, v1: Json.Value, n2: Bytes, v2: Json.Value, n3: Bytes, v3: Json.Value)
    requires n1 != n2 && n1 != n3 && n2 != n3
    ensures var o := Json.Object([(n1, v1), (n2, v2), (n3, v3)]);
            Json.Lookup(o, n1) == Some(v1) && Json.Lookup(o, n2) == Some(v2) && Json.Lookup(o, n3) == Some(v3)
  {
    var ms := [(n1, v1), (n2, v2), (n3, v3)];
    assert ms[1..] == [(n2, v2), (n3, v3)] && ms[1..][1..] == [(n3, v3)];
    assert Json.Find(ms[1..][1..], n3) == Some(v3);
    assert Json.Find(ms[1..], n2) == Some(v2) && Json.Find(ms[1..], n3) == Some(v3);
  }

  lemma EntryFields(username: Bytes, password: Bytes, auth: Bytes)
    ensures var e := CleanEntry(username, password, auth);
            TextAt(e, "username") == Some(username) && TextAt(e, "password") == Some(password) && TextAt(e, "auth") == Some(auth)
  {
    hide Ascii, Json.Lookup, JsonString.Sanitize;
    NamesAreClean();
    FindThree(Ascii("username"), Json.Text(username), Ascii("password"), Json.Text(password), Ascii("auth"), Json.Text(auth));
  }

  lemma FindOnly(name: Bytes, value: Json.Value)
    ensures Json.Lookup(Json.Object([(name, value)]), name) == Some(value)
  {
  }

  // Reading the payload for the host yields the sanitized fields, and the auth
  // field decodes to exactly username, colon, password.
  lemma ParseDockerconfigjson(host: Bytes, username: Bytes, password: Bytes)
    ensures EntryFor(Dockerconfigjson(host, username, password), JsonString.Sanitize(host)).Some?
    ensures var e := EntryFor(Dockerconfigjson(host, username, password), JsonString.Sanitize(host)).value;
            && e.username == JsonString.Sanitize(username)
            && e.password == JsonString.Sanitize(password)
            && Base64.Decode(e.auth) == Some(username + [58] + password)
  {
    hide Ascii, Json.Write, Json.Read, Json.Clean, Json.Lookup, TextAt, JsonString.Sanitize;
    var v := Config(host, username, password);
    Json.ReadWhole(v);
    CleanConfig(host, username, password);
    var e := Json.Clean(AuthEntry(username, password));
    FindOnly(Ascii("auths"), Json.Object([(JsonString.Sanitize(host), e)]));
    FindOnly(JsonString.Sanitize(host), e);
    EntryFields(JsonString.Sanitize(username), JsonString.Sanitize(password), Base64.Encode(UserPass(username, password)));
    Base64.DecodeEncode(UserPass(username, password));
  }

  // Two pairs with the same user-pass text and the same sanitized username
  // are the same pair, although neither fact suffices alone.
  lemma SplitIsUnique(u1: Bytes, p1: Bytes, u2: Bytes, p2: Bytes)
    requires UserPass(u1, p1) == UserPass(u2, p2)
    requires JsonString.Sanitize(u1) == JsonString.Sanitize(u2)
    ensures u1 == u2 && p1 == p2
  {
    if |u1| < |u2| {
      LongerUsernameSanitizesLonger(u1, p1, u2, p2);
    } else if |u2| < |u1| {
      LongerUsernameSanitizesLonger(u2, p2, u1, p1);
    } else {
      assert u1 == UserPass(u1, p1)[..|u1|] == UserPass(u2, p2)[..|u2|] == u2;
      assert p1 == UserPass(u1, p1)[|u1| + 1..] == UserPass(u2, p2)[|u2| + 1..] == p2;
    }
  }

  lemma LongerUsernameSanitizesLonger(u1: Bytes, p1: Bytes, u2: Bytes, p2: Bytes)
    requires UserPass(u1, p1) == UserPass(u2, p2) && |u1| < |u2|
    ensures |JsonString.Sanitize(u1)| < |JsonString.Sanitize(u2)|
  {
    hide UserPass, JsonString.Sanitize;
    var x := u2[|u1| + 1..];
    LongerUsername(u1, p1, u2, p2);
    JsonString.SanitizeSplitsAtAscii(u1, 58, x);
  }

  // The longer of two such usernames goes on with a colon.
  lemma LongerUsername(u1: Bytes, p1: Bytes, u2: Bytes, p2: Bytes)
    requires UserPass(u1, p1) == UserPass(u2, p2) && |u1| < |u2|
    ensures u2 == u1 + [58] + u2[|u1| + 1..]
  {
    var t := UserPass(u1, p1);
    assert forall i :: 0 <= i < |u2| ==> u2[i] == t[i];
    assert forall i :: 0 <= i < |u1| ==> u1[i] == t[i];
    assert t[|u1|] == 58;
  }

  // The payload determines the credentials: over all byte strings, two
  // payloads for one registry host are equal exactly when both fields are.
  lemma PayloadInjective(host: Bytes, u1: Bytes, p1: Bytes, u2: Bytes, p2: Bytes)
    ensures Dockerconfigjson(host, u1, p1) == Dockerconfigjson(host, u2, p2) <==> u1 == u2 && p1 == p2
  {
    if Dockerconfigjson(host, u1, p1) == Dockerconfigjson(host, u2, p2) {
      ParseDockerconfigjson(host, u1, p1);
      ParseDockerconfigjson(host, u2, p2);
      SplitIsUnique(u1, p1, u2, p2);
    }
  }

  // Neither field alone would do: JSON merges distinct usernames, and the
  // colon makes distinct pairs share one auth field.
  lemma FieldsAloneAreAmbiguous()
    ensures JsonString.Escape([0xFF]) == JsonString.Escape([0xFE])
    ensures UserPass([97, 58], [98]) == UserPass([97], [58, 98])
  {
    assert [0xFF][1..] == [] && [0xFE][1..] == [];
  }
}
