/**
 * `/api/danmaku/settings`: a signed-in user reads (`GET`) or saves (`POST`)
 * their overlay settings. The site owner is always admitted; anyone else must
 * be in the configured user list and not banned. A save must pass the
 * settings schema.
 */
module SettingsRoute {
  import opened Common
  import opened Requests

  /** An entry of the configured user list. */
  datatype User = User(username: string, banned: bool)

  /** `areaBottom` is a string or a number. */
  datatype Area = AreaText(s: string) | AreaNumber(n: real)

  datatype Settings = Settings(opacity: real, fontSize: real, areaBottom: Area, speed: real, synchronousPlayback: bool)

  /** The admission check's verdict: the user whose settings are used, or a 401 with its message. */
  datatype Admission = Admitted(username: string) | Refused(error: string)

  const NotSignedIn := "未登录"
  const UnknownUser := "用户不存在"
  const BannedUser := "用户已被封禁"

  /**
   * The check both handlers run first: `username` is the name the auth
   * cookie carries, `owner` the `USERNAME` environment variable.
   */
  function Admit(username: Option<string>, owner: Option<string>, users: seq<User>): Admission {
    if !Truthy(username) then Refused(NotSignedIn)
    else if owner == username then Admitted(username.value)
    else
      match FirstWhere(users, (u: User) => u.username == username.value)
      case None => Refused(UnknownUser)
      case Some(i) => if users[i].banned then Refused(BannedUser) else Admitted(username.value)
  }

  /** The settings schema: three bounded numbers, a string or number `areaBottom` and a boolean. */
  function ParseSettings(body: Json): Option<Settings> {
    var f := FieldsOf(body);
    var opacity := BoundedNumber(f, "opacity", 0.0, 1.0);
    var fontSize := BoundedNumber(f, "fontSize", 10.0, 80.0);
    var speed := BoundedNumber(f, "speed", 1.0, 10.0);
    if body.JObject? && opacity.Some? && fontSize.Some? && speed.Some?
       && "areaBottom" in f && (f["areaBottom"].JStr? || f["areaBottom"].JNum?)
       && "synchronousPlayback" in f && f["synchronousPlayback"].JBool?
    then
      var area := if f["areaBottom"].JStr? then AreaText(f["areaBottom"].s) else AreaNumber(f["areaBottom"].n);
      Some(Settings(opacity.value, fontSize.value, area, speed.value, f["synchronousPlayback"].b))
    else None
  }

  datatype GetReply = GetRefused(error: string) | Current(settings: Option<Settings>)

  /** 401, 400 (schema), 200, or 500 when the write throws. */
  datatype PostReply = PostRefused(error: string) | BadSettings | SavedSettings | SaveError

  /** The reply to a `POST`, given the admission, the parsed body and whether the write throws. */
  function PostReplyOf(admission: Admission, parsed: Option<Settings>, writeFails: bool): PostReply {
    match admission
    case Refused(error) => PostRefused(error)
    case Admitted(_) => if parsed.None? then BadSettings else if writeFails then SaveError else SavedSettings
  }

  /** The stored settings after a `POST`. */
  function SavedAfter(saved: map<string, Settings>, admission: Admission, parsed: Option<Settings>, writeFails: bool): map<string, Settings> {
    if admission.Admitted? && parsed.Some? && !writeFails then saved[admission.username := parsed.value] else saved
  }

  /** Per-user settings as the database keeps them; `writeFails` says whether a write throws. */
  class SettingsStore {
    var saved: map<string, Settings>
    var writeFails: bool

    constructor(saved0: map<string, Settings>, writeFails0: bool)
      ensures saved == saved0 && writeFails == writeFails0
    {
      saved := saved0;
      writeFails := writeFails0;
    }

    /** `GET`: the user's settings, or null when none are saved. */
    method Get(username: Option<string>, owner: Option<string>, users: seq<User>) returns (reply: GetReply)
      ensures Admit(username, owner, users).Refused? ==> reply == GetRefused(Admit(username, owner, users).error)
      ensures Admit(username, owner, users).Admitted? ==> reply == Current(Lookup(saved, username.value))
    {
      var admission := Admit(username, owner, users);
      if admission.Refused? {
        return GetRefused(admission.error);
      }
      reply := Current(Lookup(saved, admission.username));
    }

    /** `POST`: admission, then the schema, then the write. */
    method Post(username: Option<string>, owner: Option<string>, users: seq<User>, body: Json) returns (reply: PostReply)
      modifies this
      ensures reply == PostReplyOf(Admit(username, owner, users), ParseSettings(body), writeFails)
      ensures saved == SavedAfter(old(saved), Admit(username, owner, users), ParseSettings(body), writeFails)
      ensures writeFails == old(writeFails)
    {
      var admission := Admit(username, owner, users);
      if admission.Refused? {
        return PostRefused(admission.error);
      }
      var parsed := ParseSettings(body);
      if parsed.None? {
        return BadSettings;
      }
      if writeFails {
        return SaveError;
      }
      saved := saved[admission.username := parsed.value];
      reply := SavedSettings;
    }
  }

  // ----- properties -----

  /**
   * Admission: a signed-in user is admitted exactly when they are the owner
   * or the first user-list entry with their name is not banned; an admitted
   * user's settings are their own.
   */
  lemma AdmissionRule(username: Option<string>, owner: Option<string>, users: seq<User>)
    ensures Admit(username, owner, users).Admitted? <==>
      Truthy(username)
      && (owner == username
          || exists i | 0 <= i < |users| ::
               users[i].username == username.value && !users[i].banned
               && forall j | 0 <= j < i :: users[j].username != username.value)
    ensures Admit(username, owner, users).Admitted? ==> Admit(username, owner, users).username == username.value
  {
    if Truthy(username) && owner != username {
      var r := FirstWhere(users, (u: User) => u.username == username.value);
      if r.Some? {
        assert users[r.value].username == username.value;
      }
    }
  }

  /**
   * The refusals: no name (or an empty one) whatever the lists say, and a
   * name missing from the user list. The owner skips the list.
   */
  lemma Refusals(username: Option<string>, owner: Option<string>, users: seq<User>, others: seq<User>)
    ensures !Truthy(username) ==> Admit(username, owner, users) == Refused(NotSignedIn)
    ensures Truthy(username) && owner == username ==> Admit(username, owner, users) == Admit(username, owner, others)
    ensures Truthy(username) && owner != username && (forall i | 0 <= i < |users| :: users[i].username != username.value) ==>
              Admit(username, owner, users) == Refused(UnknownUser)
  {
  }

  /** A non-owner whose first entry in the user list is banned is refused as banned. */
  lemma BannedRefused(username: string, owner: Option<string>, users: seq<User>, i: nat)
    requires username != "" && owner != Some(username)
    requires i < |users| && users[i].username == username && users[i].banned
    requires forall j | 0 <= j < i :: users[j].username != username
    ensures Admit(Some(username), owner, users) == Refused(BannedUser)
  {
    var r := FirstWhere(users, (u: User) => u.username == username);
    assert r.Some?;
    assert r.value == i;
  }

  /**
   * The schema: accepted exactly when opacity is in [0, 1], fontSize in
   * [10, 80], speed in [1, 10], areaBottom a string or number and
   * synchronousPlayback a boolean; the settings keep those values.
   */
  lemma SettingsBounds(body: Json)
    ensures ParseSettings(body).Some? <==>
      body.JObject?
      && "opacity" in body.fields && body.fields["opacity"].JNum? && 0.0 <= body.fields["opacity"].n <= 1.0
      && "fontSize" in body.fields && body.fields["fontSize"].JNum? && 10.0 <= body.fields["fontSize"].n <= 80.0
      && "speed" in body.fields && body.fields["speed"].JNum? && 1.0 <= body.fields["speed"].n <= 10.0
      && "areaBottom" in body.fields && (body.fields["areaBottom"].JStr? || body.fields["areaBottom"].JNum?)
      && "synchronousPlayback" in body.fields && body.fields["synchronousPlayback"].JBool?
    ensures ParseSettings(body).Some? ==>
      var s := ParseSettings(body).value;
      0.0 <= s.opacity <= 1.0 && 10.0 <= s.fontSize <= 80.0 && 1.0 <= s.speed <= 10.0
      && s.opacity == body.fields["opacity"].n && s.fontSize == body.fields["fontSize"].n && s.speed == body.fields["speed"].n
      && s.synchronousPlayback == body.fields["synchronousPlayback"].b
  {
  }

  /**
   * A save happens only after both checks pass, and touches only the
   * admitted user's entry; a refused request is refused before its body is
   * looked at.
   */
  lemma WriteOnlyWhenAdmittedAndValid(saved: map<string, Settings>, admission: Admission, parsed: Option<Settings>,
                                      writeFails: bool, other: string)
    ensures SavedAfter(saved, admission, parsed, writeFails) != saved ==> admission.Admitted? && parsed.Some? && !writeFails
    ensures admission.Admitted? && other != admission.username ==>
              Lookup(SavedAfter(saved, admission, parsed, writeFails), other) == Lookup(saved, other)
    ensures PostReplyOf(admission, parsed, writeFails) == SavedSettings <==> admission.Admitted? && parsed.Some? && !writeFails
    ensures admission.Refused? ==> PostReplyOf(admission, parsed, writeFails) == PostReplyOf(admission, None, writeFails)
  {
  }

  /** A saved setting reads back: `GET` after a successful `POST` by the same user answers what was saved. */
  lemma SaveThenRead(saved: map<string, Settings>, username: Option<string>, owner: Option<string>, users: seq<User>,
                     body: Json)
    requires Admit(username, owner, users).Admitted? && ParseSettings(body).Some?
    ensures Lookup(SavedAfter(saved, Admit(username, owner, users), ParseSettings(body), false), username.value)
            == ParseSettings(body)
  {
  }
}
