/** The auth contract of internal/zitadelcontract, the workspace adapter of
    cmd/app/main.go and the browser configuration of internal/publicconfig. */
module Contract {
  import opened Schema

  /** The configuration one process runs with. */
  datatype Config = Config(authIssuer: string, adminApiUrl: string, clientId: string, scopes: seq<string>)

  datatype AuthContract = AuthContract(issuer: string, managementUrl: string, audience: string)

  function IssuerOrFallback(cfg: Config): string {
    if cfg.authIssuer != "" then cfg.authIssuer else cfg.adminApiUrl
  }

  function DeriveFresh(cfg: Config, projectId: string): AuthContract {
    AuthContract(IssuerOrFallback(cfg), cfg.adminApiUrl, projectId)
  }

  /** pgtype.Text with Valid set exactly for non-empty strings. */
  function NonEmpty(s: string): Option<string> {
    if s == "" then None else Some(s)
  }

  function OrgScope(orgId: string): string {
    if orgId == "" then "" else "urn:zitadel:iam:org:id:" + orgId
  }

  function AudienceScope(audience: string): string {
    if audience == "" then "" else "urn:zitadel:iam:org:project:id:" + audience + ":aud"
  }

  /** The audience can be read back from its scope, and so can the organisation;
      and no organisation scope is mistaken for an audience scope. */
  lemma ScopesIdentify(a: string, b: string)
    ensures AudienceScope(a) == AudienceScope(b) ==> a == b
    ensures OrgScope(a) == OrgScope(b) ==> a == b
    ensures OrgScope(a) == AudienceScope(b) ==> a == "" && b == ""
  {
    var org, pre, post := "urn:zitadel:iam:org:id:", "urn:zitadel:iam:org:project:id:", ":aud";
    if a != "" {
      assert OrgScope(a)[|org|..] == a;
      assert AudienceScope(a)[|pre|..|pre| + |a|] == a;
      assert OrgScope(a)[20] == org[20] == 'i';
      assert |AudienceScope(a)| == |pre| + |a| + |post|;
    }
    if b != "" {
      assert OrgScope(b)[|org|..] == b;
      assert AudienceScope(b)[|pre|..|pre| + |b|] == b;
      assert AudienceScope(b)[20] == pre[20] == 'p';
      assert |AudienceScope(b)| == |pre| + |b| + |post|;
    }
  }

  // ------------------------------------------------------ browser config

  datatype WorkspaceAuth = WorkspaceAuth(orgId: string, clientId: string, issuer: string,
                                         orgScope: string, audienceScope: string)

  function Text(o: Option<string>): string {
    if o.Some? then o.value else ""
  }

  /** workspaceAuthProvider.WorkspaceAuth on one read of the row. */
  function AuthOf(ws: Workspace): WorkspaceAuth {
    WorkspaceAuth(Text(ws.orgId), Text(ws.spaClientId), Text(ws.issuer),
                  OrgScope(Text(ws.orgId)), AudienceScope(Text(ws.audience)))
  }

  /** What the browser is served: the static configuration, merged. */
  datatype PublicAuth = PublicAuth(orgId: string, clientId: string, issuer: string, scopes: seq<string>)

  function Placeholder(cfg: Config): PublicAuth {
    PublicAuth("", cfg.clientId, cfg.authIssuer, cfg.scopes)
  }

  function Optional(s: string): seq<string> {
    if s == "" then [] else [s]
  }

  /** `auth` is None when the provider read failed. */
  function Served(cfg: Config, auth: Option<WorkspaceAuth>): PublicAuth {
    match auth
    case None => Placeholder(cfg)
    case Some(a) =>
      PublicAuth(a.orgId,
                 if a.clientId != "" then a.clientId else cfg.clientId,
                 if a.issuer != "" then a.issuer else cfg.authIssuer,
                 cfg.scopes + Optional(a.orgScope) + Optional(a.audienceScope))
  }

  /** The mutable response that the mutator edits. */
  class PublicConfig {
    var orgId: string
    var clientId: string
    var issuer: string
    var scopes: seq<string>

    constructor (cfg: Config)
      ensures Value() == Placeholder(cfg)
    {
      orgId, clientId, issuer, scopes := "", cfg.clientId, cfg.authIssuer, cfg.scopes;
    }

    function Value(): PublicAuth
      reads this
    {
      PublicAuth(orgId, clientId, issuer, scopes)
    }

    /** The mutator; a failed provider read leaves the placeholders. */
    method Mutate(auth: Option<WorkspaceAuth>, ghost cfg: Config)
      requires Value() == Placeholder(cfg)
      modifies this
      ensures Value() == Served(cfg, auth)
      ensures auth.None? ==> Value() == old(Value())
      ensures auth.Some? ==>
        var a := auth.value;
        && orgId == a.orgId
        && clientId == (if a.clientId == "" then old(clientId) else a.clientId)
        && issuer == (if a.issuer == "" then old(issuer) else a.issuer)
        && scopes == old(scopes) + (if a.orgScope == "" then [] else [a.orgScope])
                                 + (if a.audienceScope == "" then [] else [a.audienceScope])
    {
      if auth.None? {
        return;
      }
      var a := auth.value;
      orgId := a.orgId;
      if a.clientId != "" {
        clientId := a.clientId;
      }
      if a.issuer != "" {
        issuer := a.issuer;
      }
      if a.orgScope != "" {
        scopes := scopes + [a.orgScope];
      }
      if a.audienceScope != "" {
        scopes := scopes + [a.audienceScope];
      }
    }
  }

  /** What the browser is served for any row, column by column: what is persisted where
      something is, the static configuration elsewhere and when the read failed. */
  lemma ServedMeaning(cfg: Config, ws: Workspace)
    ensures Served(cfg, None) == PublicAuth("", cfg.clientId, cfg.authIssuer, cfg.scopes)
    ensures var served := Served(cfg, Some(AuthOf(ws)));
            && served.orgId == (if ws.orgId.Some? then ws.orgId.value else "")
            && (ws.spaClientId.None? || ws.spaClientId == Some("") ==> served.clientId == cfg.clientId)
            && (ws.spaClientId.Some? && ws.spaClientId.value != "" ==> served.clientId == ws.spaClientId.value)
            && (ws.issuer.None? || ws.issuer == Some("") ==> served.issuer == cfg.authIssuer)
            && (ws.issuer.Some? && ws.issuer.value != "" ==> served.issuer == ws.issuer.value)
            && served.scopes == cfg.scopes
               + (if ws.orgId.Some? && ws.orgId.value != "" then ["urn:zitadel:iam:org:id:" + ws.orgId.value] else [])
               + (if ws.audience.Some? && ws.audience.value != ""
                  then ["urn:zitadel:iam:org:project:id:" + ws.audience.value + ":aud"] else [])
  {
  }

  /** With an organisation and an audience persisted, the served scopes are the
      static ones followed by the scopes of exactly those two. */
  lemma ServedScopesEnd(cfg: Config, ws: Workspace)
    requires Text(ws.orgId) != "" && Text(ws.audience) != ""
    ensures var scopes := Served(cfg, Some(AuthOf(ws))).scopes;
            && |scopes| == |cfg.scopes| + 2
            && scopes[..|cfg.scopes|] == cfg.scopes
            && scopes[|scopes| - 2] == OrgScope(Text(ws.orgId))
            && scopes[|scopes| - 1] == AudienceScope(Text(ws.audience))
  {
  }
}
