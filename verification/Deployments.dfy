/** Named deployment targets and the API keys cached for each: the profile store. Every key
    carries the deployment it was minted at, which the program does not record and is here
    for the proofs. */
module Deployments {
  import opened Text

  /** What a build of the program fixes. norm is the comparable form of a base URL, "" for
      one that has none; slug names a profile after a URL; valid says which origins may be
      sent a credential; defaultBackendURL is the linker's, "" in a stock build. */
  datatype Build = Build(norm: string -> string, slug: string -> string, valid: string -> bool,
                         defaultBackendURL: string)

  /** An empty base URL has no comparable form, and no deployment is named "". */
  ghost predicate Sound(b: Build) {
    b.norm("") == "" && forall u :: u != "" ==> b.slug(u) != ""
  }

  predicate SameBaseURL(b: Build, x: string, y: string) {
    b.norm(x) != "" && b.norm(x) == b.norm(y)
  }

  /** What cannot be compared is the same as nothing, and any other URL is the same as itself and as
      what compares alike. */
  lemma SameBaseURLExactly(b: Build, x: string, y: string)
    requires Sound(b)
    ensures !SameBaseURL(b, "", y) && !SameBaseURL(b, x, "")
    ensures b.norm(x) != "" ==> SameBaseURL(b, x, x) && (SameBaseURL(b, x, y) <==> b.norm(x) == b.norm(y))
    ensures b.norm(x) == "" ==> !SameBaseURL(b, x, y)
  {
  }

  /** Where a key was minted or a request goes: Blocks Network as the build finds it, or the
      deployment at a URL. */
  datatype Deployment = Stock | At(url: string)

  predicate SameDeployment(b: Build, d: Deployment, e: Deployment) {
    d == e || (d.At? && e.At? && SameBaseURL(b, d.url, e.url))
  }

  /** The deployment a profile's base URL describes; an empty one is Blocks Network. */
  function Described(baseURL: string): Deployment {
    if baseURL == "" then Stock else At(baseURL)
  }

  lemma SameDeploymentIsEquivalence(b: Build, d: Deployment, e: Deployment, f: Deployment)
    ensures SameDeployment(b, d, d)
    ensures SameDeployment(b, d, e) ==> SameDeployment(b, e, d)
    ensures SameDeployment(b, d, e) && SameDeployment(b, e, f) ==> SameDeployment(b, d, f)
  {
  }

  datatype OrgKey = OrgKey(orgName: string, apiKey: string, expiresAt: Option<int>, mintedAt: Deployment)

  predicate IsExpired(k: OrgKey, now: int) {
    k.expiresAt.Some? && now > k.expiresAt.value
  }

  datatype Profile = Profile(baseURL: string, enterprise: bool, productName: string, dashboardBaseURL: string,
                             oauthClientID: string, defaultOrgID: string, orgs: map<string, OrgKey>)

  const NEW_PROFILE := Profile("", false, "", "", "", "", map[])

  const DEFAULT_PROFILE := "blocks-network"

  datatype Contexts = Contexts(active: string, profiles: map<string, Profile>)

  const FIRST_RUN := Contexts(DEFAULT_PROFILE, map[DEFAULT_PROFILE := NEW_PROFILE])

  /** What loading the store guarantees: the stock profile is there, and the active name
      resolves. No profile is named "". */
  ghost predicate Loaded(c: Contexts) {
    DEFAULT_PROFILE in c.profiles && c.active in c.profiles && "" !in c.profiles
  }

  /** The key of the default organization, else of the only one. */
  ghost function DefaultOrgKey(p: Profile): (k: Option<OrgKey>)
    ensures k.Some? ==> exists org :: org in p.orgs && p.orgs[org] == k.value
  {
    if p.defaultOrgID != "" && p.defaultOrgID in p.orgs then Some(p.orgs[p.defaultOrgID])
    else if |p.orgs| == 1 then
      assert p.orgs.Keys != {};
      var org :| org in p.orgs;
      Some(p.orgs[org])
    else None
  }

  method FindDefaultOrgKey(p: Profile) returns (k: Option<OrgKey>)
    ensures k == DefaultOrgKey(p)
    ensures var named := p.defaultOrgID != "" && p.defaultOrgID in p.orgs;
            && (named ==> k == Some(p.orgs[p.defaultOrgID]))
            && (!named && |p.orgs| == 1 ==> forall org :: org in p.orgs ==> k == Some(p.orgs[org]))
            && (!named && |p.orgs| != 1 ==> k == None)
  {
    if p.defaultOrgID != "" && p.defaultOrgID in p.orgs {
      return Some(p.orgs[p.defaultOrgID]);
    }
    if |p.orgs| == 1 {
      OneOrgOnly(p.orgs);
      assert p.orgs.Keys != {};
      var org :| org in p.orgs;
      assert forall other :: other in p.orgs ==> other == org;
      return Some(p.orgs[org]);
    }
    return None;
  }

  lemma OneOrgOnly<T>(m: map<string, T>)
    requires |m| == 1
    ensures forall x, y :: x in m && y in m ==> x == y
  {
    forall x, y | x in m && y in m ensures x == y {
      assert m.Keys == {x} by {
        assert |m.Keys - {x}| == 0;
      }
    }
  }

  /** Every key in the profile was minted at the deployment its base URL describes. */
  ghost predicate KeysAtHome(b: Build, p: Profile) {
    forall org :: org in p.orgs ==> SameDeployment(b, p.orgs[org].mintedAt, Described(p.baseURL))
  }

  /** A key of the profile that was minted where d is. */
  ghost predicate MintedThere(b: Build, p: Profile, key: string, d: Deployment) {
    exists org :: org in p.orgs && p.orgs[org].apiKey == key && SameDeployment(b, p.orgs[org].mintedAt, d)
  }

  ghost predicate AllAtHome(b: Build, c: Contexts) {
    forall name :: name in c.profiles ==> KeysAtHome(b, c.profiles[name])
  }
}
