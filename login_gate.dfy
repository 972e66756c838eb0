/**
 * The credential-disclosure path of the bot's button handler: a button whose
 * custom id is `view_login_<record id>` asks to see the panel login stored in
 * that server record. The record must exist, and the person who pressed the
 * button must be the record's owner or one of the configured administrators;
 * only then is the stored password decrypted and shown.
 *
 * The record store, the decryption routine and the environment are inputs:
 * `decrypt` is an arbitrary function, so everything proved here holds for any
 * cipher.
 */
module LoginGate {
  import opened JsValue
  import opened JsString

  const ViewLoginPrefix: string := "view_login_"
  const NotFoundText: string := "Server not found."
  const ForbiddenText: string := "You are not allowed to view these credentials."
  const VisibilityNote: string := "_This message is only visible to you._"

  /** The fields of a stored server record the handler reads; `None` is an absent field. */
  datatype ServerRecord = ServerRecord(
    discordOwnerId: Option<string>,
    pteroEmail: Option<string>,
    encryptedPassword: Option<string>,
    serverName: Option<string>)

  /** The environment variables the handler reads; `None` is an unset variable. */
  datatype Env = Env(adminIds: Option<string>, panelUrl: Option<string>, encryptionKey: Option<string>)

  /** What the handler does with a button press. */
  datatype Reply =
    | NotHandled          // not a view-login button: the handler returns without replying
    | NotFound            // replies NotFoundText
    | Forbidden           // replies ForbiddenText
    | Revealed(msg: string)

  /** The text of the ephemeral reply, if there is one. */
  function Content(r: Reply): Option<string> {
    match r
    case NotHandled => None
    case NotFound => Some(NotFoundText)
    case Forbidden => Some(ForbiddenText)
    case Revealed(msg) => Some(msg)
  }

  /** A template-literal substitution `${v}` of a string that may be undefined. */
  function Interp(v: Option<string>): string {
    if v.Some? then v.value else "undefined"
  }

  /** `process.env.ADMIN_IDS || ''` */
  function AdminSource(adminIds: Option<string>): string {
    if adminIds.Some? then adminIds.value else ""
  }

  /** Trimming only removes characters: every character of the result is one of the input. */
  lemma TrimKeepsOnly(s: string)
    ensures forall c :: c in Trim(s) ==> c in s
  {
    var r := Trim(s);
    forall c | c in r ensures c in s {
      var k :| 0 <= k < |r| && r[k] == c;
      assert s[LeadingSpaces(s) + k] == c;
    }
  }

  /** `parts.map(s => s.trim()).filter(Boolean)` */
  function TrimmedEntries(parts: seq<string>): (entries: seq<string>)
    ensures forall x :: x in entries <==> x != "" && exists p :: p in parts && Trim(p) == x
    ensures forall x :: x in entries ==> x != "" && !IsSpace(x[0]) && !IsSpace(x[|x| - 1])
  {
    if parts == [] then []
    else
      var rest := TrimmedEntries(parts[1..]);
      assert forall p :: p in parts <==> p == parts[0] || p in parts[1..];
      if Trim(parts[0]) == "" then rest else [Trim(parts[0])] + rest
  }

  /** Pieces without a comma give entries without a comma. */
  lemma TrimmedEntriesNoComma(parts: seq<string>)
    requires forall i :: 0 <= i < |parts| ==> ',' !in parts[i]
    ensures forall x :: x in TrimmedEntries(parts) ==> ',' !in x
  {
    forall x | x in TrimmedEntries(parts) ensures ',' !in x {
      var p :| p in parts && Trim(p) == x;
      TrimKeepsOnly(p);
    }
  }

  /** The administrator list: ADMIN_IDS split at commas, trimmed, empty entries dropped. */
  function AdminList(adminIds: Option<string>): (admins: seq<string>)
    ensures forall x :: x in admins <==>
      x != "" && exists p :: p in Split(AdminSource(adminIds), ',') && Trim(p) == x
    ensures forall x :: x in admins ==> x != "" && ',' !in x && !IsSpace(x[0]) && !IsSpace(x[|x| - 1])
  {
    TrimmedEntriesNoComma(Split(AdminSource(adminIds), ','));
    TrimmedEntries(Split(AdminSource(adminIds), ','))
  }

  /** An unset or empty ADMIN_IDS names no administrator. */
  lemma NoAdminsWhenUnset(adminIds: Option<string>)
    requires adminIds == None || adminIds == Some("")
    ensures AdminList(adminIds) == []
  {
    assert Split("", ',') == [""];
    assert Trim("") == "";
    if x :| x in AdminList(adminIds) {
      assert false;
    }
  }

  /** An id that is empty, padded with white space or holds a comma is never an administrator. */
  lemma NearMissNeverAdmin(requesterId: string, adminIds: Option<string>)
    requires requesterId == "" || ',' in requesterId
          || IsSpace(requesterId[0]) || IsSpace(requesterId[|requesterId| - 1])
    ensures requesterId !in AdminList(adminIds)
  {
  }

  /** The owner-or-administrator test (exact string equality on both sides). */
  predicate MayView(requesterId: string, server: ServerRecord, admins: seq<string>) {
    Some(requesterId) == server.discordOwnerId || requesterId in admins
  }

  /** The reveal message, with its four fields in this order. */
  function RevealMessage(panelUrl: Option<string>, email: Option<string>, password: string, serverName: Option<string>): string {
    "**Panel URL:** " + Interp(panelUrl) +
    "\n**Email/Username:** " + Interp(email) +
    "\n**Password:** " + password +
    "\n**Server Name:** " + Interp(serverName) +
    "\n\n" + VisibilityNote
  }

  /** The record id a view-login custom id refers to: the text after the prefix. */
  function RecordId(customId: string): (id: string)
    requires StartsWith(customId, ViewLoginPrefix)
    ensures customId == ViewLoginPrefix + id
  {
    ReplacePrefix(customId, ViewLoginPrefix);
    ReplaceFirst(customId, ViewLoginPrefix, "")
  }

  /** The button branch of the interaction handler. */
  function ViewLogin(
    customId: string, requesterId: string, store: map<string, ServerRecord>, env: Env,
    decrypt: (Option<string>, Option<string>) -> string): (r: Reply)
    ensures r == NotHandled <==> !StartsWith(customId, ViewLoginPrefix)
    ensures r == NotFound <==>
      StartsWith(customId, ViewLoginPrefix) && customId[|ViewLoginPrefix|..] !in store
    ensures r == Forbidden <==>
      StartsWith(customId, ViewLoginPrefix) && customId[|ViewLoginPrefix|..] in store &&
      Some(requesterId) != store[customId[|ViewLoginPrefix|..]].discordOwnerId &&
      requesterId !in AdminList(env.adminIds)
    ensures r.Revealed? ==>
      var server := store[customId[|ViewLoginPrefix|..]];
      r.msg == RevealMessage(env.panelUrl, server.pteroEmail,
                             decrypt(server.encryptedPassword, env.encryptionKey), server.serverName)
  {
    if !StartsWith(customId, ViewLoginPrefix) then NotHandled
    else
      var dbId := RecordId(customId);
      if dbId !in store then NotFound
      else
        var server := store[dbId];
        var admins := AdminList(env.adminIds);
        if !MayView(requesterId, server, admins) then Forbidden
        else
          var password := decrypt(server.encryptedPassword, env.encryptionKey);
          Revealed(RevealMessage(env.panelUrl, server.pteroEmail, password, server.serverName))
  }

  /**
   * Only a revealed reply depends on the decryption routine or the key: a
   * refusal, a missing record and an ignored button are the same whatever
   * `decrypt` would return, so no password reaches them.
   */
  lemma OnlyRevealDecrypts(
    customId: string, requesterId: string, store: map<string, ServerRecord>, env: Env,
    decrypt: (Option<string>, Option<string>) -> string,
    otherDecrypt: (Option<string>, Option<string>) -> string, otherKey: Option<string>)
    requires !ViewLogin(customId, requesterId, store, env, decrypt).Revealed?
    ensures ViewLogin(customId, requesterId, store, env.(encryptionKey := otherKey), otherDecrypt)
         == ViewLogin(customId, requesterId, store, env, decrypt)
  {
  }

  /** `parts` occur in `s` one after another, without overlapping. */
  ghost predicate InOrder(s: string, parts: seq<string>)
    decreases |parts|
  {
    parts == [] ||
    exists i: nat :: OccursAt(s, parts[0], i) && InOrder(s[i + |parts[0]|..], parts[1..])
  }

  /** Text `x` placed after a prefix and before a suffix is found at the prefix's end. */
  lemma FoundAfter(pre: string, x: string, post: string, parts: seq<string>)
    requires InOrder(post, parts)
    ensures InOrder(pre + x + post, [x] + parts)
  {
    var s := pre + x + post;
    assert s[|pre|..|pre| + |x|] == x;
    assert s[|pre| + |x|..] == post;
    assert ([x] + parts)[1..] == parts;
    assert OccursAt(s, ([x] + parts)[0], |pre|);
    assert InOrder(s[|pre| + |x|..], ([x] + parts)[1..]);
  }

  /** The revealed message holds the panel URL, the login, the password and the server name, in that order. */
  lemma {:induction false} RevealMessageInOrder(
    panelUrl: Option<string>, email: Option<string>, password: string, serverName: Option<string>)
    ensures InOrder(RevealMessage(panelUrl, email, password, serverName),
                    [Interp(panelUrl), Interp(email), password, Interp(serverName)])
  {
    var url, login, name := Interp(panelUrl), Interp(email), Interp(serverName);
    var s4 := "\n\n" + VisibilityNote;
    assert InOrder(s4, []);
    FoundAfter("\n**Server Name:** ", name, s4, []);
    var s3, p3 := "\n**Server Name:** " + name + s4, [name] + [];
    FoundAfter("\n**Password:** ", password, s3, p3);
    var s2, p2 := "\n**Password:** " + password + s3, [password] + p3;
    FoundAfter("\n**Email/Username:** ", login, s2, p2);
    var s1, p1 := "\n**Email/Username:** " + login + s2, [login] + p2;
    FoundAfter("**Panel URL:** ", url, s1, p1);
    assert [url] + p1 == [url, login, password, name];
    assert RevealMessage(panelUrl, email, password, serverName) == "**Panel URL:** " + url + s1 by {
      MessageShape(url, login, password, name);
    }
  }

  lemma MessageShape(url: string, login: string, password: string, name: string)
    ensures "**Panel URL:** " + url + "\n**Email/Username:** " + login + "\n**Password:** " + password +
            "\n**Server Name:** " + name + "\n\n" + VisibilityNote
         == "**Panel URL:** " + url + ("\n**Email/Username:** " + login + ("\n**Password:** " + password +
            ("\n**Server Name:** " + name + ("\n\n" + VisibilityNote))))
  {
  }

  /** An id holding a character that ADMIN_IDS does not hold is not an administrator. */
  lemma NotAdminWithForeignChar(requesterId: string, adminIds: Option<string>, c: char)
    requires c in requesterId && c !in AdminSource(adminIds)
    ensures requesterId !in AdminList(adminIds)
  {
    var parts := Split(AdminSource(adminIds), ',');
    if requesterId in AdminList(adminIds) {
      var i :| 0 <= i < |parts| && Trim(parts[i]) == requesterId;
      TrimKeepsOnly(parts[i]);
      CharInJoin(parts, ',', i, c);
    }
  }

  /**
   * The owner of a record, or an administrator, is shown the record's login:
   * the panel URL, the email, the decrypted password and the server name, in
   * that order.
   */
  lemma AuthorisedSeesPassword(
    customId: string, requesterId: string, store: map<string, ServerRecord>, env: Env,
    decrypt: (Option<string>, Option<string>) -> string)
    requires StartsWith(customId, ViewLoginPrefix) && customId[|ViewLoginPrefix|..] in store
    requires Some(requesterId) == store[customId[|ViewLoginPrefix|..]].discordOwnerId
          || requesterId in AdminList(env.adminIds)
    ensures var server := store[customId[|ViewLoginPrefix|..]];
      var r := ViewLogin(customId, requesterId, store, env, decrypt);
      r.Revealed? && InOrder(r.msg, [Interp(env.panelUrl), Interp(server.pteroEmail),
                                     decrypt(server.encryptedPassword, env.encryptionKey), Interp(server.serverName)])
  {
    var server := store[customId[|ViewLoginPrefix|..]];
    RevealMessageInOrder(env.panelUrl, server.pteroEmail,
                         decrypt(server.encryptedPassword, env.encryptionKey), server.serverName);
  }

  /** Someone who is neither the owner of a stored record nor an administrator is refused. */
  lemma IntruderForbidden(
    customId: string, requesterId: string, store: map<string, ServerRecord>, env: Env,
    decrypt: (Option<string>, Option<string>) -> string)
    requires StartsWith(customId, ViewLoginPrefix) && customId[|ViewLoginPrefix|..] in store
    requires Some(requesterId) != store[customId[|ViewLoginPrefix|..]].discordOwnerId
    requires requesterId !in AdminList(env.adminIds)
    ensures ViewLogin(customId, requesterId, store, env, decrypt) == Forbidden
  {
  }

  /**
   * The text the handler replies with: none for a foreign button, "Server
   * not found." exactly for a missing record, the refusal text exactly for a
   * refused requester; the login message never reads as either of those texts.
   */
  lemma ReplyTexts(
    customId: string, requesterId: string, store: map<string, ServerRecord>, env: Env,
    decrypt: (Option<string>, Option<string>) -> string)
    ensures var text := Content(ViewLogin(customId, requesterId, store, env, decrypt));
      && (text == None <==> !StartsWith(customId, ViewLoginPrefix))
      && (text == Some(NotFoundText) <==>
            StartsWith(customId, ViewLoginPrefix) && customId[|ViewLoginPrefix|..] !in store)
      && (text == Some(ForbiddenText) <==>
            StartsWith(customId, ViewLoginPrefix) && customId[|ViewLoginPrefix|..] in store &&
            Some(requesterId) != store[customId[|ViewLoginPrefix|..]].discordOwnerId &&
            requesterId !in AdminList(env.adminIds))
  {
    var r := ViewLogin(customId, requesterId, store, env, decrypt);
    if r.Revealed? {
      assert r.msg[0] == '*';
      assert NotFoundText[0] == 'S' && ForbiddenText[0] == 'Y';
    }
  }

  const SampleStore: map<string, ServerRecord> :=
    map["rec1" := ServerRecord(Some("user123"), Some("u@example.com"), Some("ciphertext-of-hunter2"), Some("mc-1"))]

  /** Sample: the owner `user123` of record `rec1` sees its decrypted password, between the login and the server name. */
  lemma SampleOwnerSeesPassword(decrypt: (Option<string>, Option<string>) -> string, key: Option<string>)
    requires decrypt(Some("ciphertext-of-hunter2"), key) == "hunter2"
    ensures
      var r := ViewLogin("view_login_rec1", "user123", SampleStore, Env(None, Some("https://panel"), key), decrypt);
      r.Revealed? && InOrder(r.msg, ["https://panel", "u@example.com", "hunter2", "mc-1"])
  {
    var r := ViewLogin("view_login_rec1", "user123", SampleStore, Env(None, Some("https://panel"), key), decrypt);
    assert StartsWith("view_login_rec1", ViewLoginPrefix);
    assert "view_login_rec1"[|ViewLoginPrefix|..] == "rec1";
    var server := SampleStore["rec1"];
    assert server.discordOwnerId == Some("user123");
    assert r != NotHandled && r != NotFound && r != Forbidden;
    assert r.msg == RevealMessage(Some("https://panel"), server.pteroEmail, "hunter2", server.serverName);
    RevealMessageInOrder(Some("https://panel"), Some("u@example.com"), "hunter2", Some("mc-1"));
  }

  /** Sample: `intruder`, neither the owner of `rec1` nor listed in "admin1, admin2", is refused. */
  lemma SampleIntruderForbidden(decrypt: (Option<string>, Option<string>) -> string, key: Option<string>)
    ensures ViewLogin("view_login_rec1", "intruder", SampleStore,
                      Env(Some("admin1, admin2"), Some("https://panel"), key), decrypt) == Forbidden
  {
    assert StartsWith("view_login_rec1", ViewLoginPrefix);
    assert "view_login_rec1"[|ViewLoginPrefix|..] == "rec1";
    assert "intruder"[2] == 't';
    NotAdminWithForeignChar("intruder", Some("admin1, admin2"), 't');
  }
}
