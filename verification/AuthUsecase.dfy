/**
 The use case as the program runs it: awaited calls on the JWT service and the
 repository, in source order. Each method computes `AuthSerial.Serve`, whatever
 fails. Clock readings, `randomUUID` results and failures are parameters.
 */
module AuthUsecases {
  import opened Prelude
  import opened Tokens
  import opened RefreshTokens
  import opened AuthSteps
  import opened AuthSerial

  /** Signs with the server's two secrets and remembers what it signed. */
  class JwtService {
    var minted: map<Uuid, RefreshJwt>
    var accessSigned: set<AccessJwt>

    constructor ()
      ensures minted == map[] && accessSigned == {}
    {
      minted, accessSigned := map[], {};
    }

    method SignAccess(claims: Claims, now: nat, span: nat) returns (token: AccessJwt)
      modifies this`accessSigned
      ensures token == AccessToken(claims, ExpOf(now, span))
      ensures accessSigned == old(accessSigned) + {token}
    {
      token := AccessToken(claims, ExpOf(now, span));
      accessSigned := accessSigned + {token};
    }

    method SignRefresh(claims: Claims, jti: Uuid, now: nat, span: nat) returns (token: RefreshJwt)
      modifies this`minted
      ensures token == RefreshToken(claims, jti, ExpOf(now, span))
      ensures minted == old(minted)[jti := token]
    {
      token := RefreshToken(claims, jti, ExpOf(now, span));
      minted := minted[jti := token];
    }

    method VerifyRefresh(token: Token, now: nat) returns (payload: Option<RefreshJwt>)
      ensures payload.Some? <==> VerifiesRefresh(minted, now, token)
      ensures payload.Some? ==> payload.value == token
    {
      if token.RefreshToken? && token.jti in minted && minted[token.jti] == token && now / 1000 < token.exp {
        payload := Some(token);
      } else {
        payload := None;
      }
    }
  }

  class AuthUsecase {
    const repo: RefreshTokenRepository
    const jwt: JwtService
    const cfg: Config

    constructor (repo: RefreshTokenRepository, jwt: JwtService, cfg: Config)
      ensures this.repo == repo && this.jwt == jwt && this.cfg == cfg
    {
      this.repo, this.jwt, this.cfg := repo, jwt, cfg;
    }

    /** The stored state this use case works on, at a clock reading. */
    ghost function StoreAt(now: nat): Store
      reads repo, jwt
    {
      Store(now, repo.rows, jwt.minted, jwt.accessSigned)
    }

    method IssueTokens(user: User, now: nat, jti: Uuid, fails: bool) returns (outcome: Outcome)
      requires jti !in jwt.minted && jti !in repo.rows
      modifies repo, jwt
      ensures Reply(StoreAt(now), outcome)
           == Serve(cfg, old(StoreAt(now)), Request(0, LogIn(user, jti), if fails then WriteFault else NoFault))
    {
      var claims := Claims(user.id, user.tenantId, user.role, user.email);
      var access := jwt.SignAccess(claims, now, cfg.accessSpan);
      var refresh := jwt.SignRefresh(claims, jti, now, cfg.refreshSpan);
      var created := repo.Create(RowFor(refresh, now, cfg.rowLifetime), fails);
      outcome := if created.Some? then Granted(access, refresh) else DatabaseFailure;
    }

    /** The failure a refresh meets: its read, or the statement of its write that fails. */
    static function FaultOf(readFails: bool, failAt: Option<nat>): Fault {
      if readFails then ReadFault else if failAt.Some? && failAt.value <= 2 then WriteFault else NoFault
    }

    /** A failing rotation stores nothing and lets no token reach the client, though both were signed. */
    method Refresh(presented: Token, now: nat, jti: Uuid, readFails: bool, failAt: Option<nat>)
      returns (outcome: Outcome)
      requires jti !in jwt.minted && jti !in repo.rows && (forall i | i in repo.rows :: repo.rows[i].id == i)
      modifies repo, jwt
      ensures Reply(StoreAt(now), outcome)
           == Serve(cfg, old(StoreAt(now)), Request(0, Body.Refresh(presented, jti), FaultOf(readFails, failAt)))
    {
      var payload := jwt.VerifyRefresh(presented, now);
      if payload.None? {
        return TokenRejected;
      }
      var ok, record := repo.FindById(payload.value.jti, readFails);
      if !ok {
        return DatabaseFailure;
      }
      if record.None? {
        return NoRecord;
      }
      if record.value.revokedAt.Some? {
        ok := repo.RevokeAllForUser(record.value.userId, now, failAt.Some? && failAt.value <= 2);
        return if ok then AlreadyUsed else DatabaseFailure;
      }
      if record.value.tokenHash != Sha256(presented) {
        ok := repo.RevokeAllForUser(record.value.userId, now, failAt.Some? && failAt.value <= 2);
        return if ok then HashMismatch else DatabaseFailure;
      }
      var claims := payload.value.claims;
      var access := jwt.SignAccess(claims, now, cfg.accessSpan);
      var refresh := jwt.SignRefresh(claims, jti, now, cfg.refreshSpan);
      var committed := repo.Rotate(RowFor(refresh, now, cfg.rowLifetime), record.value.id, now, failAt);
      outcome := if committed then Granted(access, refresh) else DatabaseFailure;
    }

    /** A failing revoke is swallowed. */
    method Logout(presented: Token, now: nat, fails: bool)
      modifies repo
      ensures StoreAt(now)
           == Serve(cfg, old(StoreAt(now)), Request(0, LogOut(presented), if fails then WriteFault else NoFault)).store
    {
      var payload := jwt.VerifyRefresh(presented, now);
      if payload.Some? {
        var _ := repo.Revoke(payload.value.jti, now, fails);
      }
    }
  }
}
