/** Members of an activity and their one-shot invitation tokens. */
module Invitations {
  datatype Role = Owner | Admin

  /** `active` is false while the account is INVITED and has no password. */
  datatype User = User(activity: nat, email: string, active: bool)

  datatype Member = Member(activity: nat, user: nat, role: Role, active: bool)

  datatype TokenStatus = Open | Accepted | Revoked | Lapsed

  datatype Token = Token(activity: nat, user: nat, role: Role, status: TokenStatus, expiresAt: int)

  datatype Book = Book(users: seq<User>, members: seq<Member>, tokens: seq<Token>)

  datatype Error =
    | Validation | NotFound | Conflict | Forbidden | EmailTaken | MemberExists
    | SmtpNotConfigured | TokenInvalid | TokenExpired

  datatype Reply = Invited(token: nat) | Done | Activated(role: Role) | Failed(error: Error)

  datatype Outcome = Outcome(after: Book, reply: Reply)

  function Reject(b: Book, error: Error): Outcome { Outcome(b, Failed(error)) }

  // ---------- queries: the row with the lowest id, or -1 ----------

  function UserByEmail(users: seq<User>, n: nat, a: nat, email: string): (r: int)
    requires n <= |users|
    ensures -1 <= r < n && (r >= 0 ==> users[r].activity == a && users[r].email == email)
    ensures r < 0 ==> forall i :: 0 <= i < n ==> !(users[i].activity == a && users[i].email == email)
  {
    if n == 0 then -1
    else
      var front := UserByEmail(users, n - 1, a, email);
      if front >= 0 then front else if users[n - 1].activity == a && users[n - 1].email == email then n - 1 else -1
  }

  function MemberOf(members: seq<Member>, n: nat, a: nat, u: nat): (r: int)
    requires n <= |members|
    ensures -1 <= r < n && (r >= 0 ==> members[r].activity == a && members[r].user == u)
    ensures r < 0 ==> forall i :: 0 <= i < n ==> !(members[i].activity == a && members[i].user == u)
  {
    if n == 0 then -1
    else
      var front := MemberOf(members, n - 1, a, u);
      if front >= 0 then front else if members[n - 1].activity == a && members[n - 1].user == u then n - 1 else -1
  }

  function OwnerOf(members: seq<Member>, n: nat, a: nat): (r: int)
    requires n <= |members|
    ensures -1 <= r < n && (r >= 0 ==> members[r].activity == a && members[r].role.Owner?)
    ensures r < 0 ==> forall i :: 0 <= i < n ==> !(members[i].activity == a && members[i].role.Owner?)
  {
    if n == 0 then -1
    else
      var front := OwnerOf(members, n - 1, a);
      if front >= 0 then front else if members[n - 1].activity == a && members[n - 1].role.Owner? then n - 1 else -1
  }

  // ---------- the transactions ----------

  datatype Slots = Slots(members: seq<Member>) | Refused(error: Error)

  /** The membership of user `u` in the given role: a new row, the disabled OWNER row pointed at the new owner, a
      promotion or a re-activation. */
  function UpsertSlot(members: seq<Member>, a: nat, u: nat, role: Role): Slots {
    var existing := MemberOf(members, |members|, a, u);
    var owner := OwnerOf(members, |members|, a);
    if existing < 0 then
      if role.Owner? && owner >= 0 then
        if members[owner].active then Refused(EmailTaken)
        else Slots(members[owner := members[owner].(user := u, active := true)])
      else Slots(members + [Member(a, u, role, true)])
    else
      var row := members[existing];
      if row.active && row.role == role then Refused(if role.Owner? then EmailTaken else MemberExists)
      else if row.active && !role.Owner? then Refused(MemberExists)
      else if role.Owner? && row.role.Admin? && owner >= 0 && owner != existing then Refused(EmailTaken)
      else Slots(members[existing := row.(role := role, active := true)])
  }

  /** Every open token of the user is revoked. */
  function Supersede(tokens: seq<Token>, u: nat): (r: seq<Token>)
    ensures |r| == |tokens|
  {
    seq(|tokens|, i requires 0 <= i < |tokens| =>
      if tokens[i].user == u && tokens[i].status.Open? then tokens[i].(status := Revoked) else tokens[i])
  }

  function Mint(tokens: seq<Token>, a: nat, u: nat, role: Role, expiresAt: int): seq<Token> {
    Supersede(tokens, u) + [Token(a, u, role, Open, expiresAt)]
  }

  function EnsureUser(users: seq<User>, a: nat, email: string): (r: seq<User>)
    ensures UserByEmail(r, |r|, a, email) >= 0
  {
    if UserByEmail(users, |users|, a, email) >= 0 then users
    else
      var more := users + [User(a, email, false)];
      assert more[|users|].email == email;
      more
  }

  /** Invitations of an OWNER need the platform's mail configuration; those of an ADMIN stand without a mail. */
  function InviteTx(b: Book, a: nat, email: string, role: Role, valid: bool, smtpReady: bool, expiresAt: int): Outcome {
    if !valid then Reject(b, Validation)
    else
      var users := EnsureUser(b.users, a, email);
      var u := UserByEmail(users, |users|, a, email);
      match UpsertSlot(b.members, a, u, role)
      case Refused(error) => Reject(b, error)
      case Slots(members) =>
        if role.Owner? && !smtpReady then Reject(b, SmtpNotConfigured)
        else Outcome(Book(users, members, Mint(b.tokens, a, u, role, expiresAt)), Invited(|b.tokens|))
  }

  function ResendTx(b: Book, a: nat, u: nat, smtpReady: bool, expiresAt: int): Outcome {
    var m := MemberOf(b.members, |b.members|, a, u);
    if m < 0 || u >= |b.users| then Reject(b, NotFound)
    else if b.users[u].active then Reject(b, Conflict)
    else if b.members[m].role.Owner? && !smtpReady then Reject(b, SmtpNotConfigured)
    else Outcome(b.(tokens := Mint(b.tokens, a, u, b.members[m].role, expiresAt)), Invited(|b.tokens|))
  }

  function DisableTx(b: Book, a: nat, u: nat, platform: bool, actor: nat): Outcome {
    var m := MemberOf(b.members, |b.members|, a, u);
    if m < 0 then Reject(b, NotFound)
    else if platform && !b.members[m].role.Owner? then Reject(b, Forbidden)
    else if !platform && (!b.members[m].role.Admin? || u == actor) then Reject(b, Forbidden)
    else if !b.members[m].active then Outcome(b, Done)
    else Outcome(b.(members := b.members[m := b.members[m].(active := false)], tokens := Supersede(b.tokens, u)), Done)
  }

  /** Consumes a token once: it must be open and in time, the account not yet active, the membership active. */
  function AcceptTx(b: Book, t: nat, passwordOk: bool, now: int): Outcome {
    if !passwordOk then Reject(b, Validation)
    else if t >= |b.tokens| || b.tokens[t].user >= |b.users| then Reject(b, TokenInvalid)
    else
      var token := b.tokens[t];
      match token.status
      case Lapsed => Reject(b, TokenExpired)
      case Revoked => Reject(b, Conflict)
      case Accepted => Reject(b, Conflict)
      case Open =>
        if now > token.expiresAt then Reject(b, TokenExpired)
        else if b.users[token.user].active then Reject(b, Conflict)
        else
          var m := MemberOf(b.members, |b.members|, token.activity, token.user);
          if m < 0 || !b.members[m].active then Reject(b, Conflict)
          else
            Outcome(b.(tokens := b.tokens[t := token.(status := Accepted)],
                       users := b.users[token.user := b.users[token.user].(active := true)]), Activated(token.role))
  }

  // ---------- the service in place ----------

  class MemberService {
    var users: seq<User>
    var members: seq<Member>
    var tokens: seq<Token>

    function Contents(): Book
      reads this
    {
      Book(users, members, tokens)
    }

    constructor ()
      ensures Contents() == Book([], [], [])
    {
      users, members, tokens := [], [], [];
    }

    /** Revokes the open tokens of the user one by one. */
    method SupersedePending(u: nat)
      modifies `tokens
      ensures tokens == Supersede(old(tokens), u)
    {
      ghost var before := tokens;
      for i := 0 to |tokens|
        invariant |tokens| == |before|
        invariant forall j :: 0 <= j < |before| ==> tokens[j] == if j < i then Supersede(before, u)[j] else before[j]
      {
        if tokens[i].user == u && tokens[i].status.Open? {
          tokens := tokens[i := tokens[i].(status := Revoked)];
        }
      }
    }

    method MintToken(a: nat, u: nat, role: Role, expiresAt: int) returns (t: nat)
      modifies `tokens
      ensures tokens == Mint(old(tokens), a, u, role, expiresAt) && t == old(|tokens|)
    {
      SupersedePending(u);
      t := |tokens|;
      tokens := tokens + [Token(a, u, role, Open, expiresAt)];
    }

    method Invite(a: nat, email: string, role: Role, valid: bool, smtpReady: bool,
          expiresAt: int) returns (reply: Reply)
      modifies this
      ensures Outcome(Contents(), reply) == InviteTx(old(Contents()), a, email, role, valid, smtpReady, expiresAt)
    {
      if !valid {
        return Failed(Validation);
      }
      var before := Contents();
      users := EnsureUser(users, a, email);
      var u := UserByEmail(users, |users|, a, email);
      match UpsertSlot(members, a, u, role)
      case Refused(error) =>
        users := before.users;
        return Failed(error);
      case Slots(slots) =>
        members := slots;
        var t := MintToken(a, u, role, expiresAt);
        if role.Owner? && !smtpReady {
          users, members, tokens := before.users, before.members, before.tokens;
          return Failed(SmtpNotConfigured);
        }
        return Invited(t);
    }

    method ResendInvitation(a: nat, u: nat, smtpReady: bool, expiresAt: int) returns (reply: Reply)
      modifies this
      ensures Outcome(Contents(), reply) == ResendTx(old(Contents()), a, u, smtpReady, expiresAt)
    {
      var m := MemberOf(members, |members|, a, u);
      if m < 0 || u >= |users| {
        return Failed(NotFound);
      }
      if users[u].active {
        return Failed(Conflict);
      }
      var before := tokens;
      var t := MintToken(a, u, members[m].role, expiresAt);
      if members[m].role.Owner? && !smtpReady {
        tokens := before;
        return Failed(SmtpNotConfigured);
      }
      return Invited(t);
    }

    method DisableMember(a: nat, u: nat, platform: bool, actor: nat) returns (reply: Reply)
      modifies this
      ensures Outcome(Contents(), reply) == DisableTx(old(Contents()), a, u, platform, actor)
    {
      var m := MemberOf(members, |members|, a, u);
      if m < 0 {
        return Failed(NotFound);
      }
      if platform {
        if !members[m].role.Owner? {
          return Failed(Forbidden);
        }
      } else {
        if !members[m].role.Admin? || u == actor {
          return Failed(Forbidden);
        }
      }
      if members[m].active {
        members := members[m := members[m].(active := false)];
        SupersedePending(u);
      }
      return Done;
    }

    method AcceptInvitation(t: nat, passwordOk: bool, now: int) returns (reply: Reply)
      modifies this
      ensures Outcome(Contents(), reply) == AcceptTx(old(Contents()), t, passwordOk, now)
    {
      if !passwordOk {
        return Failed(Validation);
      }
      if t >= |tokens| || tokens[t].user >= |users| {
        return Failed(TokenInvalid);
      }
      var token := tokens[t];
      match token.status
      case Lapsed => return Failed(TokenExpired);
      case Revoked => return Failed(Conflict);
      case Accepted => return Failed(Conflict);
      case Open =>
        if now > token.expiresAt {
          return Failed(TokenExpired);
        }
        if users[token.user].active {
          return Failed(Conflict);
        }
        var m := MemberOf(members, |members|, token.activity, token.user);
        if m < 0 || !members[m].active {
          return Failed(Conflict);
        }
        tokens := tokens[t := token.(status := Accepted)];
        users := users[token.user := users[token.user].(active := true)];
        return Activated(token.role);
    }
  }

  // ---------- the invariant ----------

  /** One account per e-mail, one membership per account, one OWNER row, each within its activity. */
  predicate UsersOk(users: seq<User>) {
    forall i, j :: 0 <= i < j < |users| && users[i].activity == users[j].activity ==> users[i].email != users[j].email
  }

  predicate MembersOk(members: seq<Member>) {
    forall i, j :: 0 <= i < j < |members| && members[i].activity == members[j].activity ==>
      members[i].user != members[j].user && !(members[i].role.Owner? && members[j].role.Owner?)
  }

  /** Only the newest token of a user can be open. */
  predicate TokensOk(tokens: seq<Token>) {
    forall i, j :: 0 <= i < j < |tokens| && tokens[i].user == tokens[j].user ==> !tokens[i].status.Open?
  }

  /** An open token promises the role its holder's membership has, if there still is one. */
  predicate RolesOk(b: Book) {
    forall t, m :: 0 <= t < |b.tokens| && 0 <= m < |b.members| ==> RoleFits(b.tokens[t], b.members[m])
  }

  predicate RoleFits(token: Token, member: Member) {
    token.status.Open? && token.user == member.user && token.activity == member.activity ==> token.role == member.role
  }

  predicate Refs(b: Book) { forall t :: 0 <= t < |b.tokens| ==> b.tokens[t].user < |b.users| }

  predicate BookOk(b: Book) { UsersOk(b.users) && MembersOk(b.members) && TokensOk(b.tokens) && RolesOk(b) && Refs(b) }

  /** An account once active stays active, and a used or revoked token is never opened again. */
  predicate BookEvolves(b: Book, r: Book) {
    && |b.users| <= |r.users| && |b.tokens| <= |r.tokens|
    && (forall u :: 0 <= u < |b.users| ==>
        r.users[u] == b.users[u].(active := r.users[u].active) && (b.users[u].active ==> r.users[u].active))
    && forall t :: 0 <= t < |b.tokens| ==>
         r.tokens[t] == b.tokens[t].(status := r.tokens[t].status) && (!b.tokens[t].status.Open? ==>
             r.tokens[t] == b.tokens[t])
  }

  lemma SlotKeeps(members: seq<Member>, a: nat, u: nat, role: Role)
    requires MembersOk(members) && UpsertSlot(members, a, u, role).Slots?
    ensures var r := UpsertSlot(members, a, u, role).members;
      && MembersOk(r)
      && (exists m :: 0 <= m < |r| && r[m] == Member(a, u, role, true))
      && (forall m :: 0 <= m < |r| ==> r[m] == Member(a, u, role, true) || (m < |members| && r[m] == members[m]))
  {
    var r := UpsertSlot(members, a, u, role).members;
    var existing, owner := MemberOf(members, |members|, a, u), OwnerOf(members, |members|, a);
    var m := if existing >= 0 then existing else if role.Owner? && owner >= 0 then owner else |members|;
    assert r[m] == Member(a, u, role, true);
  }

  lemma MintKeeps(b: Book, members: seq<Member>, users: seq<User>, a: nat, u: nat, role: Role, expiresAt: int)
    requires BookOk(b) && UsersOk(users) && |b.users| <= |users| && u < |users| && MembersOk(members)
    requires forall m :: 0 <= m < |members| ==>
      (members[m].activity == a && members[m].user == u ==> members[m].role == role)
      && (members[m].user != u ==> m < |b.members| && members[m] == b.members[m])
    ensures BookOk(Book(users, members, Mint(b.tokens, a, u, role, expiresAt)))
  {
    var r := Book(users, members, Mint(b.tokens, a, u, role, expiresAt));
    forall t, m | 0 <= t < |r.tokens| && 0 <= m < |r.members| ensures RoleFits(r.tokens[t], r.members[m]) {
      if t < |b.tokens| && m < |b.members| {
        assert RoleFits(b.tokens[t], b.members[m]);
      }
    }
  }

  datatype Step =
    | SendInvite(a: nat, email: string, role: Role, valid: bool, smtpReady: bool, expiresAt: int)
    | SendAgain(a: nat, u: nat, smtpReady: bool, expiresAt: int)
    | Dismiss(a: nat, u: nat, platform: bool, actor: nat)
    | Redeem(t: nat, passwordOk: bool, now: int)

  function Apply(b: Book, step: Step): Outcome {
    match step
    case SendInvite(a, email, role, valid, smtpReady, expiresAt) =>
      InviteTx(b, a, email, role, valid, smtpReady, expiresAt)
    case SendAgain(a, u, smtpReady, expiresAt) => ResendTx(b, a, u, smtpReady, expiresAt)
    case Dismiss(a, u, platform, actor) => DisableTx(b, a, u, platform, actor)
    case Redeem(t, passwordOk, now) => AcceptTx(b, t, passwordOk, now)
  }

  lemma InviteKeeps(b: Book, a: nat, email: string, role: Role, valid: bool, smtpReady: bool, expiresAt: int)
    requires BookOk(b)
    ensures BookOk(InviteTx(b, a, email, role, valid, smtpReady, expiresAt).after)
  {
    if InviteTx(b, a, email, role, valid, smtpReady, expiresAt).reply.Invited? {
      var users := EnsureUser(b.users, a, email);
      var u := UserByEmail(users, |users|, a, email);
      SlotKeeps(b.members, a, u, role);
      MintKeeps(b, UpsertSlot(b.members, a, u, role).members, users, a, u, role, expiresAt);
    }
  }

  lemma ResendKeeps(b: Book, a: nat, u: nat, smtpReady: bool, expiresAt: int)
    requires BookOk(b)
    ensures BookOk(ResendTx(b, a, u, smtpReady, expiresAt).after)
  {
    if ResendTx(b, a, u, smtpReady, expiresAt).reply.Invited? {
      var m := MemberOf(b.members, |b.members|, a, u);
      MintKeeps(b, b.members, b.users, a, u, b.members[m].role, expiresAt);
    }
  }

  lemma DisableKeeps(b: Book, a: nat, u: nat, platform: bool, actor: nat)
    requires BookOk(b)
    ensures BookOk(DisableTx(b, a, u, platform, actor).after)
  {
    var r := DisableTx(b, a, u, platform, actor).after;
    forall t, m | 0 <= t < |r.tokens| && 0 <= m < |r.members| ensures RoleFits(r.tokens[t], r.members[m]) {
      assert RoleFits(b.tokens[t], b.members[m]);
    }
  }

  lemma RedeemKeeps(b: Book, t: nat, passwordOk: bool, now: int)
    requires BookOk(b)
    ensures BookOk(AcceptTx(b, t, passwordOk, now).after)
  {
    var r := AcceptTx(b, t, passwordOk, now).after;
    forall i, m | 0 <= i < |r.tokens| && 0 <= m < |r.members| ensures RoleFits(r.tokens[i], r.members[m]) {
      assert RoleFits(b.tokens[i], b.members[m]);
    }
  }

  lemma StepKeeps(b: Book, step: Step)
    requires BookOk(b)
    ensures BookOk(Apply(b, step).after)
  {
    match step
    case SendInvite(a, email, role, valid, smtpReady, expiresAt) =>
      InviteKeeps(b, a, email, role, valid, smtpReady, expiresAt);
    case SendAgain(a, u, smtpReady, expiresAt) => ResendKeeps(b, a, u, smtpReady, expiresAt);
    case Dismiss(a, u, platform, actor) => DisableKeeps(b, a, u, platform, actor);
    case Redeem(t, passwordOk, now) => RedeemKeeps(b, t, passwordOk, now);
  }

  lemma StepEvolves(b: Book, step: Step)
    ensures BookEvolves(b, Apply(b, step).after)
  {
  }

  function Run(b: Book, steps: seq<Step>): Book
    decreases |steps|
  {
    if steps == [] then b else Run(Apply(b, steps[0]).after, steps[1..])
  }

  /** Over every sequence of invitations, resends, dismissals and acceptances: at most one OWNER row per activity, at
      most one open token per user and only the newest, roles that agree, and nothing final undone. */
  lemma {:induction false} RunKeeps(b: Book, steps: seq<Step>)
    requires BookOk(b)
    ensures BookOk(Run(b, steps)) && BookEvolves(b, Run(b, steps))
    decreases |steps|
  {
    if steps != [] {
      StepKeeps(b, steps[0]);
      StepEvolves(b, steps[0]);
      RunKeeps(Apply(b, steps[0]).after, steps[1..]);
    }
  }

  const EMPTY := Book([], [], [])

  /** The role an acceptance reports is the role of the activated membership, and no other membership of that account in
      the activity exists. */
  lemma RoleIsTrue(steps: seq<Step>, t: nat, now: int, m: nat)
    requires var b := Run(EMPTY, steps); AcceptTx(b, t, true, now).reply.Activated? && m < |b.members|
    requires var b := Run(EMPTY, steps);
      b.members[m].activity == b.tokens[t].activity && b.members[m].user == b.tokens[t].user
    ensures var b := Run(EMPTY, steps);
      b.members[m].active && AcceptTx(b, t, true, now).reply == Activated(b.members[m].role)
  {
    var b := Run(EMPTY, steps);
    RunKeeps(EMPTY, steps);
    assert RoleFits(b.tokens[t], b.members[m]);
    var found := MemberOf(b.members, |b.members|, b.tokens[t].activity, b.tokens[t].user);
    assert found == m;
  }

  /** After an acceptance neither that token nor any other ever activates the account again. */
  lemma ActivatesOnce(b: Book, t: nat, now: int, more: seq<Step>, other: nat, later: int)
    requires BookOk(b) && AcceptTx(b, t, true, now).reply.Activated?
    ensures var r := Run(AcceptTx(b, t, true, now).after, more);
      other < |r.tokens| && r.tokens[other].user == b.tokens[t].user ==>
          !AcceptTx(r, other, true, later).reply.Activated?
  {
    var next := AcceptTx(b, t, true, now).after;
    RedeemKeeps(b, t, true, now);
    RunKeeps(next, more);
  }

  /** An invitation or a resend opens the token it announces and closes every other one of that user. */
  lemma FreshTokenRules(b: Book, step: Step, t: nat)
    requires BookOk(b) && Apply(b, step).reply.Invited? && t < |Apply(b, step).after.tokens|
    ensures var r, newest := Apply(b, step).after, Apply(b, step).reply.token;
      && newest < |r.tokens| && r.tokens[newest].status.Open?
      && (t != newest && r.tokens[t].user == r.tokens[newest].user ==> !r.tokens[t].status.Open?)
  {
  }

  // ---------- what is answered, and when a token can be redeemed ----------

  /** The account has an active membership in the activity. */
  predicate ActiveMember(b: Book, a: nat, u: nat) {
    exists m :: 0 <= m < |b.members| && b.members[m].activity == a && b.members[m].user == u && b.members[m].active
  }

  lemma MemberFound(b: Book, a: nat, u: nat)
    requires MembersOk(b.members)
    ensures var m := MemberOf(b.members, |b.members|, a, u);
      ActiveMember(b, a, u) <==> m >= 0 && b.members[m].active
  {
  }

  /** A token can be redeemed: it is open and in time, its account invited and its membership active. */
  predicate Redeemable(b: Book, t: nat, now: int)
    requires Refs(b)
  {
    && t < |b.tokens| && b.tokens[t].status.Open? && now <= b.tokens[t].expiresAt
    && !b.users[b.tokens[t].user].active && ActiveMember(b, b.tokens[t].activity, b.tokens[t].user)
  }

  /** The token is used up and its account activated; nothing else changes. */
  predicate Redeemed(b: Book, r: Book, t: nat)
    requires Refs(b) && t < |b.tokens|
  {
    var u := b.tokens[t].user;
    r == b.(tokens := b.tokens[t := b.tokens[t].(status := Accepted)],
            users := b.users[u := b.users[u].(active := true)])
  }

  /** An acceptance succeeds exactly for a legal password and a redeemable token, with the role on the token; in every
      other case nothing changes, and the reason is told. */
  lemma RedeemAnswers(b: Book, t: nat, passwordOk: bool, now: int)
    requires BookOk(b)
    ensures var r := AcceptTx(b, t, passwordOk, now);
      && (r.reply.Activated? <==> passwordOk && Redeemable(b, t, now))
      && (if passwordOk && Redeemable(b, t, now) then r.reply == Activated(b.tokens[t].role) && Redeemed(b, r.after, t)
          else r.after == b)
      && (r.reply == Failed(Validation) <==> !passwordOk)
      && (r.reply == Failed(TokenInvalid) <==> passwordOk && t >= |b.tokens|)
      && (r.reply == Failed(TokenExpired) <==>
            passwordOk && t < |b.tokens|
            && (b.tokens[t].status.Lapsed? || (b.tokens[t].status.Open? && now > b.tokens[t].expiresAt)))
      && (r.reply.Activated?
          || r.reply in {Failed(Validation), Failed(TokenInvalid), Failed(TokenExpired), Failed(Conflict)})
  {
    if t < |b.tokens| {
      MemberFound(b, b.tokens[t].activity, b.tokens[t].user);
    }
  }

  /** The token an invitation or a resend announces: the newest, open, for the named account, role and time. */
  lemma MintedToken(b: Book, step: Step)
    requires BookOk(b) && Apply(b, step).reply.Invited?
    ensures step.SendInvite? || step.SendAgain?
    ensures var r, t := Apply(b, step).after, Apply(b, step).reply.token;
      && t == |b.tokens| == |r.tokens| - 1 && r.tokens[t].status.Open? && r.tokens[t].user < |r.users|
      && r.tokens[t].expiresAt == step.expiresAt && r.tokens[t].activity == step.a
      && ActiveOrDismissed(r, t)
      && (step.SendInvite? ==>
            && ActiveMember(r, step.a, r.tokens[t].user) && r.tokens[t].role == step.role
            && r.users[r.tokens[t].user].activity == step.a && r.users[r.tokens[t].user].email == step.email)
      && (step.SendAgain? ==> r.tokens[t].user == step.u && !r.users[step.u].active)
  {
    StepKeeps(b, step);
    if step.SendInvite? {
      var users := EnsureUser(b.users, step.a, step.email);
      var u := UserByEmail(users, |users|, step.a, step.email);
      SlotKeeps(b.members, step.a, u, step.role);
    }
  }

  /** The holder has a membership in the activity of the token, with the token's role. */
  predicate ActiveOrDismissed(b: Book, t: nat)
    requires t < |b.tokens|
  {
    exists m :: 0 <= m < |b.members| && b.members[m].activity == b.tokens[t].activity
                && b.members[m].user == b.tokens[t].user && b.members[m].role == b.tokens[t].role
  }

  /** An invitation just sent to an account without a password can be redeemed until it expires. */
  lemma InvitationWorks(b: Book, step: Step, now: int)
    requires BookOk(b) && step.SendInvite? && Apply(b, step).reply.Invited?
    requires var r := Apply(b, step).after; !r.users[r.tokens[|b.tokens|].user].active
    ensures var r := Apply(b, step).after;
      AcceptTx(r, |b.tokens|, true, now).reply.Activated? <==> now <= step.expiresAt
  {
    StepKeeps(b, step);
    MintedToken(b, step);
    RedeemAnswers(Apply(b, step).after, |b.tokens|, true, now);
  }

  /** Whatever happens afterwards: while it is open, its account invited and its membership active, it can be redeemed
      exactly until the time it was sent with. */
  lemma InvitationStands(b: Book, step: Step, more: seq<Step>, now: int)
    requires BookOk(b) && Apply(b, step).reply.Invited?
    ensures (step.SendInvite? || step.SendAgain?) && |b.tokens| < |Run(Apply(b, step).after, more).tokens|
    ensures var r, t := Run(Apply(b, step).after, more), |b.tokens|;
      r.tokens[t].user < |r.users| && r.tokens[t].status.Open? && !r.users[r.tokens[t].user].active
      && ActiveMember(r, r.tokens[t].activity, r.tokens[t].user) ==>
        (AcceptTx(r, t, true, now).reply.Activated? <==> now <= step.expiresAt)
  {
    StepKeeps(b, step);
    MintedToken(b, step);
    RunKeeps(Apply(b, step).after, more);
    RedeemAnswers(Run(Apply(b, step).after, more), |b.tokens|, true, now);
  }

  /** A dismissal succeeds for an OWNER row when the platform asks, for the ADMIN row of somebody else otherwise; it
      takes the membership away and closes the open tokens of that account, once. */
  lemma DismissAnswers(b: Book, a: nat, u: nat, platform: bool, actor: nat)
    requires BookOk(b)
    ensures var r := DisableTx(b, a, u, platform, actor); var m := MemberOf(b.members, |b.members|, a, u);
      var within := m >= 0 && if platform then b.members[m].role.Owner? else b.members[m].role.Admin? && u != actor;
      && (r.reply == Failed(NotFound) <==> m < 0) && (r.reply == Failed(Forbidden) <==> m >= 0 && !within)
      && (r.reply == Done <==> within) && (r.reply.Failed? ==> r.after == b)
      && (within ==>
            && !ActiveMember(r.after, a, u) && |r.after.members| == |b.members| && r.after.users == b.users
            && |r.after.tokens| == |b.tokens|
            && (forall k :: 0 <= k < |b.members| && k != m ==> r.after.members[k] == b.members[k])
            && r.after.members[m] == b.members[m].(active := false)
            && (forall t :: 0 <= t < |b.tokens| ==>
                  r.after.tokens[t] == if b.members[m].active && b.tokens[t].user == u && b.tokens[t].status.Open?
                                       then b.tokens[t].(status := Revoked) else b.tokens[t]))
  {
  }

  lemma ResendAnswers(b: Book, a: nat, u: nat, smtpReady: bool, expiresAt: int)
    requires BookOk(b)
    ensures var r := ResendTx(b, a, u, smtpReady, expiresAt); var m := MemberOf(b.members, |b.members|, a, u);
      var known := m >= 0 && u < |b.users|;
      var invited := known && !b.users[u].active;
      && (r.reply == Failed(NotFound) <==> !known) && (r.reply == Failed(Conflict) <==> known && b.users[u].active)
      && (r.reply == Failed(SmtpNotConfigured) <==> invited && b.members[m].role.Owner? && !smtpReady)
      && (r.reply.Invited? <==> invited && (b.members[m].role.Owner? ==> smtpReady))
      && (r.reply.Failed? ==> r.after == b)
      && (r.reply.Invited? ==>
            && r.after == b.(tokens := r.after.tokens) && r.reply.token == |b.tokens|
            && r.after.tokens[|b.tokens|] == Token(a, u, b.members[m].role, Open, expiresAt))
  {
  }

  /** When a membership is granted, and why not: an OWNER's place that is taken, or a membership already there. */
  lemma SlotAnswers(members: seq<Member>, a: nat, u: nat, role: Role)
    requires MembersOk(members)
    ensures var slots := UpsertSlot(members, a, u, role);
      var own := set m | 0 <= m < |members| && members[m].activity == a && members[m].user == u;
      var rival := exists m :: 0 <= m < |members| && members[m].activity == a && members[m].role.Owner?
                               && members[m].user != u && (own == {} ==> members[m].active);
      var has := exists m :: m in own && members[m].active && members[m].role == role;
      && (slots == Refused(MemberExists) <==> role.Admin? && exists m :: m in own && members[m].active)
      && (slots == Refused(EmailTaken) <==> role.Owner? && (has || rival))
      && (slots.Slots? <==> if role.Owner? then !has && !rival else !exists m :: m in own && members[m].active)
  {
    var own := set m | 0 <= m < |members| && members[m].activity == a && members[m].user == u;
    var existing, owner := MemberOf(members, |members|, a, u), OwnerOf(members, |members|, a);
    assert own == if existing < 0 then {} else {existing};
  }

  lemma InviteAnswers(b: Book, a: nat, email: string, role: Role, valid: bool, smtpReady: bool, expiresAt: int)
    requires BookOk(b)
    ensures var r := InviteTx(b, a, email, role, valid, smtpReady, expiresAt);
      var users := EnsureUser(b.users, a, email);
      var slots := UpsertSlot(b.members, a, UserByEmail(users, |users|, a, email), role);
      && (r.reply == Failed(Validation) <==> !valid)
      && (valid && slots.Refused? ==> r == Outcome(b, Failed(slots.error)))
      && (r.reply == Failed(SmtpNotConfigured) <==> valid && slots.Slots? && role.Owner? && !smtpReady)
      && (r.reply.Invited? <==> valid && slots.Slots? && (role.Owner? ==> smtpReady))
      && (r.reply.Failed? ==> r.after == b)
  {
    var users := EnsureUser(b.users, a, email);
    SlotErrors(b.members, a, UserByEmail(users, |users|, a, email), role);
  }

  lemma SlotErrors(members: seq<Member>, a: nat, u: nat, role: Role)
    ensures UpsertSlot(members, a, u, role).Refused? ==>
      UpsertSlot(members, a, u, role).error in {EmailTaken, MemberExists}
  {
  }
}
