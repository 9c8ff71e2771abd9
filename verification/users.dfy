/** The user registry handlers: registration (functions/auth/register.ts), login (functions/auth/login.ts),
    the caller's subscription (functions/user/subscription.ts), the caller's profile
    (functions/user/profile.ts) and `/me` (functions/auth/me.ts). sha256 (as hex text), the email and URL
    checks of the request schemas, and the clock are parameters. Handlers behind authMiddleware that take
    `caller` are entered with the payload it installed. */
module Users {
  import opened Common
  import opened Text
  import opened Records
  import opened Store
  import opened Metadata
  import opened Auth

  type Hash = string -> string

  /** The first 16 characters of the hex digest of the email: `digest('hex').substring(0, 16)`. */
  function UserIdOf(email: string, sha256: Hash): (id: string)
    ensures |sha256(email)| >= 16 ==> |id| == 16 && StartsWith(sha256(email), id)
    ensures |sha256(email)| < 16 ==> id == sha256(email)
  {
    var h := sha256(email);
    if |h| >= 16 then h[..16] else h
  }

  /** A user as the handlers return it: the record without its password hash and creation time. */
  datatype Account = Account(id: string, email: string, role: Role, subscription: Tier, profile: Option<Profile>)

  /** A user as `/me` and `GET /profile` return it: the record without its password hash. */
  datatype ProfileView = ProfileView(
    id: string, email: string, role: Role, subscription: Tier, profile: Option<Profile>, createdAt: int)

  function AccountOf(u: UserMetadata): (a: Account)
    ensures a.id == u.id && a.email == u.email && a.role == u.role && a.subscription == u.subscription
            && a.profile == u.profile
  {
    Account(u.id, u.email, u.role, u.subscription, u.profile)
  }

  function ViewOf(u: UserMetadata): (v: ProfileView)
    ensures v.id == u.id && v.email == u.email && v.role == u.role && v.subscription == u.subscription
            && v.profile == u.profile && v.createdAt == u.createdAt
  {
    ProfileView(u.id, u.email, u.role, u.subscription, u.profile, u.createdAt)
  }

  /** No answer depends on the password hash. */
  lemma ProjectionsHideHash(u: UserMetadata, otherHash: string)
    ensures AccountOf(u.(passwordHash := otherHash)) == AccountOf(u)
    ensures ViewOf(u.(passwordHash := otherHash)) == ViewOf(u)
  {
  }

  /** A token and the user it was issued for. */
  datatype Session = Session(token: IssuedToken, user: Account)

  /** The `/register` body. */
  datatype RegisterRequest = RegisterRequest(email: string, password: string, role: Option<string>)

  /** `registerSchema`: a valid email, a password of at least 6 characters, and a role, if any, from the enum
      (which includes 'admin'). */
  predicate RegisterValid(req: RegisterRequest, isEmail: string -> bool)
  {
    isEmail(req.email) && |req.password| >= 6 && (req.role.None? || req.role.value in ["admin", "user", "guest"])
  }

  /** The requested role, `'user'` when none is given. */
  function RoleOf(role: Option<string>): (r: Role)
    ensures role == Some("admin") <==> r == Admin
    ensures role == Some("guest") <==> r == Guest
  {
    if role == Some("admin") then Admin else if role == Some("guest") then Guest else User
  }

  /** The record registration creates: the hash of the password, never the password, and the free tier. */
  function NewUser(req: RegisterRequest, id: string, sha256: Hash, now: int): (u: UserMetadata)
    ensures u.id == id && u.email == req.email && u.passwordHash == sha256(req.password)
    ensures u.role == RoleOf(req.role) && u.subscription == Free && u.createdAt == now && u.profile.None?
  {
    UserMetadata(id, req.email, sha256(req.password), RoleOf(req.role), Free, now, None)
  }

  /** POST /register: check, then create. */
  method Register(store: ObjectStore, req: RegisterRequest, sha256: Hash, isEmail: string -> bool, now: int)
    returns (r: Response<Session>)
    requires store.Valid()
    modifies store
    ensures store.Valid()
    ensures !RegisterValid(req, isEmail) ==> r == Refuse(400, "Validation failed") && store.log == old(store.log)
    ensures (RegisterValid(req, isEmail) && GetMetadata(old(store.View()), UserRecords, UserIdOf(req.email, sha256)).Some?)
              ==> r == Refuse(400, "User already exists") && store.log == old(store.log)
    ensures RegisterValid(req, isEmail) && GetMetadata(old(store.View()), UserRecords, UserIdOf(req.email, sha256)).None? ==>
      var id := UserIdOf(req.email, sha256);
      var u := NewUser(req, id, sha256, now);
      (r.Reply? <==> RecordKey(UserRecords, id) !in store.faulty)
      && store.log == old(store.log) + (if r.Reply? then [RecordWrite(UserRecords, id, UserDoc(u))] else [])
      && (r.Reply? ==> r.body == Session(IssuedToken(Claims(id, u.role, u.subscription)), AccountOf(u)))
      && (r.Refuse? ==> r == Refuse(500, "Registration failed"))
  {
    if !RegisterValid(req, isEmail) {
      return Refuse(400, "Validation failed");
    }
    var id := UserIdOf(req.email, sha256);
    var existing := GetMetadata(store.View(), UserRecords, id);
    if existing.Some? {
      return Refuse(400, "User already exists");
    }
    var user := NewUser(req, id, sha256, now);
    var ok := SaveMetadata(store, UserRecords, id, UserDoc(user));
    if !ok {
      return Refuse(500, "Registration failed");
    }
    r := Reply(Session(IssuedToken(Claims(id, user.role, user.subscription)), AccountOf(user)));
  }

  /** The `/login` body. */
  datatype LoginRequest = LoginRequest(email: string, password: string)

  /** POST /login. An unknown email and a wrong password get the same answer. */
  function Login(snap: Snapshot, req: LoginRequest, sha256: Hash, isEmail: string -> bool): (r: Response<Session>)
    ensures !isEmail(req.email) || req.password == "" ==> r == Refuse(400, "Validation failed")
    ensures r.Reply? <==> isEmail(req.email) && req.password != ""
                          && GetUser(snap, UserIdOf(req.email, sha256)).Some?
                          && GetUser(snap, UserIdOf(req.email, sha256)).value.passwordHash == sha256(req.password)
    ensures r.Refuse? && isEmail(req.email) && req.password != "" ==> r == Refuse(401, "Invalid credentials")
    ensures r.Reply? ==> var u := GetUser(snap, UserIdOf(req.email, sha256)).value;
      r.body == Session(IssuedToken(Claims(u.id, u.role, u.subscription)), AccountOf(u))
  {
    if !isEmail(req.email) || |req.password| < 1 then Refuse(400, "Validation failed")
    else match GetUser(snap, UserIdOf(req.email, sha256))
      case None => Refuse(401, "Invalid credentials")
      case Some(u) =>
        if u.passwordHash != sha256(req.password) then Refuse(401, "Invalid credentials")
        else Reply(Session(IssuedToken(Claims(u.id, u.role, u.subscription)), AccountOf(u)))
  }

  /** Once registration has written its record, logging in with the same email and password succeeds and
      issues a token for the same claims. */
  lemma RegisterThenLogin(snap: Snapshot, req: RegisterRequest, sha256: Hash, isEmail: string -> bool, now: int)
    requires RegisterValid(req, isEmail)
    requires RecordKey(UserRecords, UserIdOf(req.email, sha256)) !in snap.unreadable
    ensures var id := UserIdOf(req.email, sha256);
      var u := NewUser(req, id, sha256, now);
      var after := Snapshot(Apply(snap.objects, [RecordWrite(UserRecords, id, UserDoc(u))]), snap.unreadable);
      Login(after, LoginRequest(req.email, req.password), sha256, isEmail)
        == Reply(Session(IssuedToken(Claims(id, u.role, Free)), AccountOf(u)))
  {
    var id := UserIdOf(req.email, sha256);
    var u := NewUser(req, id, sha256, now);
    GetAfterSave(snap, UserRecords, id, UserDoc(u));
  }

  /** The answer of `GET /subscription`. */
  datatype TierView = TierView(subscription: Tier, role: Role)

  /** GET /subscription: the stored tier and role of the caller. */
  function SubscriptionGet(snap: Snapshot, caller: Claims): (r: Response<TierView>)
    ensures r.Refuse? <==> GetUser(snap, caller.userId).None?
    ensures r.Refuse? ==> r == Refuse(404, "User not found")
    ensures r.Reply? ==> r.body == TierView(GetUser(snap, caller.userId).value.subscription, GetUser(snap, caller.userId).value.role)
  {
    match GetUser(snap, caller.userId)
    case None => Refuse(404, "User not found")
    case Some(u) => Reply(TierView(u.subscription, u.role))
  }

  /** `updateSubscriptionSchema`: exactly 'free' or 'premium'. */
  function ParseTier(s: string): (t: Option<Tier>)
    ensures t.Some? <==> s == "free" || s == "premium"
    ensures t == Some(Premium) <==> s == "premium"
  {
    if s == "free" then Some(Free) else if s == "premium" then Some(Premium) else None
  }

  /** POST /subscription: any caller may set their own tier; only that field of the record changes, and the
      caller's token keeps the tier it was issued with. */
  method SubscriptionPost(store: ObjectStore, caller: Claims, requested: string) returns (r: Response<Tier>)
    requires store.Valid()
    modifies store
    ensures store.Valid()
    ensures ParseTier(requested).None? ==> r == Refuse(400, "Validation failed") && store.log == old(store.log)
    ensures (ParseTier(requested).Some? && GetUser(old(store.View()), caller.userId).None?)
              ==> r == Refuse(404, "User not found") && store.log == old(store.log)
    ensures ParseTier(requested).Some? && GetUser(old(store.View()), caller.userId).Some? ==>
      var u := GetUser(old(store.View()), caller.userId).value;
      var updated := u.(subscription := ParseTier(requested).value);
      (r.Reply? <==> RecordKey(UserRecords, caller.userId) !in store.faulty)
      && store.log == old(store.log) + (if r.Reply? then [RecordWrite(UserRecords, caller.userId, UserDoc(updated))] else [])
      && (r.Reply? ==> r.body == ParseTier(requested).value)
      && (r.Refuse? ==> r == Refuse(500, "Failed to update subscription"))
  {
    var tier := ParseTier(requested);
    if tier.None? {
      return Refuse(400, "Validation failed");
    }
    var userData := GetUser(store.View(), caller.userId);
    if userData.None? {
      return Refuse(404, "User not found");
    }
    var updated := userData.value.(subscription := tier.value);
    var ok := SaveMetadata(store, UserRecords, caller.userId, UserDoc(updated));
    if !ok {
      return Refuse(500, "Failed to update subscription");
    }
    r := Reply(tier.value);
  }

  /** A free user who upgrades is still denied premium content until a new token is issued, because every
      read path checks the token's claims, not the record. */
  lemma UpgradeNeedsNewToken(snap: Snapshot, caller: Claims)
    requires caller.role == User && caller.subscription == Free
    requires RecordKey(UserRecords, caller.userId) !in snap.unreadable
    requires GetUser(snap, caller.userId).Some?
    ensures var updated := GetUser(snap, caller.userId).value.(subscription := Premium);
      var after := Snapshot(Apply(snap.objects, [RecordWrite(UserRecords, caller.userId, UserDoc(updated))]), snap.unreadable);
      SubscriptionGet(after, caller) == Reply(TierView(Premium, updated.role)) && PremiumDenied(true, caller)
  {
    var updated := GetUser(snap, caller.userId).value.(subscription := Premium);
    GetAfterSave(snap, UserRecords, caller.userId, UserDoc(updated));
  }

  /** The `/profile` update body: each field may be absent. */
  datatype ProfileUpdate = ProfileUpdate(name: Option<string>, avatar: Option<string>)

  /** `{ ...profile, ...update }`: a field the update carries replaces the stored one, any other is kept. */
  function MergeProfile(profile: Option<Profile>, update: ProfileUpdate): (p: Profile)
    ensures update.name.Some? ==> p.name == update.name
    ensures update.avatar.Some? ==> p.avatar == update.avatar
    ensures update.name.None? ==> p.name == (if profile.Some? then profile.value.name else None)
    ensures update.avatar.None? ==> p.avatar == (if profile.Some? then profile.value.avatar else None)
  {
    var base := if profile.Some? then profile.value else Profile(None, None);
    Profile(if update.name.Some? then update.name else base.name,
            if update.avatar.Some? then update.avatar else base.avatar)
  }

  /** Sending the same update twice leaves the profile as sending it once, and an empty update keeps a stored
      profile as it is. */
  lemma MergeProfileIdempotent(profile: Option<Profile>, update: ProfileUpdate)
    ensures MergeProfile(Some(MergeProfile(profile, update)), update) == MergeProfile(profile, update)
    ensures profile.Some? ==> MergeProfile(profile, ProfileUpdate(None, None)) == profile.value
  {
  }

  /** GET /profile. */
  function ProfileGet(snap: Snapshot, caller: Claims): (r: Response<ProfileView>)
    ensures r.Refuse? <==> GetUser(snap, caller.userId).None?
    ensures r.Refuse? ==> r == Refuse(404, "User not found")
    ensures r.Reply? ==> r.body == ViewOf(GetUser(snap, caller.userId).value)
  {
    match GetUser(snap, caller.userId)
    case None => Refuse(404, "User not found")
    case Some(u) => Reply(ViewOf(u))
  }

  /** POST /profile: only the profile of the caller's record changes. */
  method ProfilePost(store: ObjectStore, caller: Claims, update: ProfileUpdate, isUrl: string -> bool)
    returns (r: Response<Account>)
    requires store.Valid()
    modifies store
    ensures store.Valid()
    ensures update.avatar.Some? && !isUrl(update.avatar.value) ==> r == Refuse(400, "Validation failed") && store.log == old(store.log)
    ensures ((update.avatar.None? || isUrl(update.avatar.value)) && GetUser(old(store.View()), caller.userId).None?)
              ==> r == Refuse(404, "User not found") && store.log == old(store.log)
    ensures (update.avatar.None? || isUrl(update.avatar.value)) && GetUser(old(store.View()), caller.userId).Some? ==>
      var u := GetUser(old(store.View()), caller.userId).value;
      var updated := u.(profile := Some(MergeProfile(u.profile, update)));
      (r.Reply? <==> RecordKey(UserRecords, caller.userId) !in store.faulty)
      && store.log == old(store.log) + (if r.Reply? then [RecordWrite(UserRecords, caller.userId, UserDoc(updated))] else [])
      && (r.Reply? ==> r.body == AccountOf(updated))
      && (r.Refuse? ==> r == Refuse(500, "Failed to update profile"))
  {
    if update.avatar.Some? && !isUrl(update.avatar.value) {
      return Refuse(400, "Validation failed");
    }
    var userData := GetUser(store.View(), caller.userId);
    if userData.None? {
      return Refuse(404, "User not found");
    }
    var u := userData.value;
    var updated := u.(profile := Some(MergeProfile(u.profile, update)));
    var ok := SaveMetadata(store, UserRecords, caller.userId, UserDoc(updated));
    if !ok {
      return Refuse(500, "Failed to update profile");
    }
    r := Reply(AccountOf(updated));
  }

  /** GET /me: authMiddleware, then the caller's record without its password hash. */
  function Me(snap: Snapshot, authorization: Option<string>, verify: Verifier): (r: Response<ProfileView>)
    ensures Authenticated(authorization, verify).None? ==> r.Refuse? && r.status == 401
    ensures !Truthy(ExtractToken(authorization)) ==> r == Refuse(401, "Unauthorized: No token provided")
    ensures Authenticated(authorization, verify).Some? ==>
              r == ProfileGet(snap, Authenticated(authorization, verify).value)
  {
    match Authenticated(authorization, verify)
    case None =>
      if !Truthy(ExtractToken(authorization)) then Refuse(401, "Unauthorized: No token provided")
      else Refuse(401, "Unauthorized: Invalid token")
    case Some(caller) =>
      match GetUser(snap, caller.userId)
      case None => Refuse(404, "User not found")
      case Some(u) => Reply(ViewOf(u))
  }

  /** After a profile update, `/me` of the same caller shows the merged profile and everything else as it
      was. */
  lemma ProfileUpdateVisibleToMe(snap: Snapshot, authorization: Option<string>, verify: Verifier, update: ProfileUpdate)
    requires Authenticated(authorization, verify).Some?
    requires var caller := Authenticated(authorization, verify).value;
      GetUser(snap, caller.userId).Some? && RecordKey(UserRecords, caller.userId) !in snap.unreadable
    ensures var caller := Authenticated(authorization, verify).value;
      var u := GetUser(snap, caller.userId).value;
      var updated := u.(profile := Some(MergeProfile(u.profile, update)));
      var after := Snapshot(Apply(snap.objects, [RecordWrite(UserRecords, caller.userId, UserDoc(updated))]), snap.unreadable);
      Me(after, authorization, verify) == Reply(ViewOf(u).(profile := Some(MergeProfile(u.profile, update))))
  {
    var caller := Authenticated(authorization, verify).value;
    var u := GetUser(snap, caller.userId).value;
    var updated := u.(profile := Some(MergeProfile(u.profile, update)));
    GetAfterSave(snap, UserRecords, caller.userId, UserDoc(updated));
  }
}
