/** What a login leaves in the project .env: its key, and the two pins that decide where a
    script run there spends it. */
module LoginEnv {
  import opened Text
  import opened Lists
  import opened EnvFile
  import opened EnvBatch
  import D = EnvDisk
  import opened Deployments
  import opened CliContext
  import L = Login
  import opened CredentialHistory
  import P = ProcessEnv
  import R = ProfileRemoval

  /** loginBackendPin: the deployment the login reached, "" for one that it was not pointed at. */
  function LoginBackendPin(b: Build, v: L.Invocation, choice: L.Choice): string {
    var d := L.LoginDeployment(b, v, choice);
    if d.network then "" else d.url
  }

  /** The key and the targeting are one rewrite. */
  function Targeting(pin: string, apiKey: string): seq<EnvMutation> {
    var endpoint := P.EndpointFor(pin);
    [EnvMutation(P.BACKEND_URL, pin, pin == ""), EnvMutation(P.CDM_URL, endpoint, endpoint == ""),
     EnvMutation(P.API_KEY, apiKey, false)]
  }

  /** The pin names the deployment the key was minted at, unless the login was blind: and then
      it never does. */
  lemma PinDescribesTheMint(b: Build, env: Env, c: Contexts, remote: Option<string>, choice: L.Choice)
    requires Sound(b) && Loaded(c) && L.ValidChoice(c, choice)
    requires L.MintedAt(b, InvokedIn(env, c, remote), choice).Some?
    ensures var v := InvokedIn(env, c, remote);
            (SameDeployment(b, L.MintedAt(b, v, choice).value, Described(LoginBackendPin(b, v, choice)))
             <==> !Blind(b, env, c, choice))
  {
  }

  // ------------------------------------------------------------------- in the file

  /** Every reader finds v under key, or, if v is empty, nothing: the CLI's own, its loader, and
      the one that takes the last assignment. */
  ghost predicate AllRead(lines: seq<string>, key: string, v: string) {
    && EnvValue(lines, key) == v
    && (forall ci :: P.FileValue(ci, lines, key) == v)
    && LastWins(lines, key) == if v == "" then None else Some(v)
  }

  lemma OneLineIsRead(key: string, value: string)
    requires ValidEnvKey(key) && value != ""
    ensures AllRead([AssignmentLine(key, value)], key, value)
  {
    var line := AssignmentLine(key, value);
    AssignmentRoundTrip(key, value);
    AssignmentMatches(key, value, key);
    SameEnvVariableIsEquivalence(key, key, key);
    assert [line][1..] == [];
  }

  /** What a key of the CLI's own stands on decides what every reader finds. */
  lemma ReadFromItsLines(lines: seq<string>, key: string, value: string)
    requires HasPrefix(CanonicalEnvKey(key), ENV_KEY_NAMESPACE) && ValidEnvKey(key)
    requires Keep(lines, Assigns(key)) == if value == "" then [] else [AssignmentLine(key, value)]
    ensures AllRead(lines, key, value)
  {
    ReadersSeeMatchingLines(lines, key);
    forall ci ensures P.FileValue(ci, lines, key) == P.FileValue(ci, Keep(lines, Assigns(key)), key) {
      R.LoaderSeesMatchingLines(ci, lines, key);
    }
    if value != "" {
      OneLineIsRead(key, value);
    }
  }

  lemma LastOfThree(x: EnvMutation, y: EnvMutation, z: EnvMutation, key: string)
    ensures LastMutation([x, y, z], key)
         == if SameEnvVariable(z.key, key) then Some(z)
            else if SameEnvVariable(y.key, key) then Some(y)
            else if SameEnvVariable(x.key, key) then Some(x) else None
  {
    assert [x, y, z][..2] == [x, y] && [x, y][..1] == [x] && [x][..0] == [];
    assert LastMutation([x], key) == if SameEnvVariable(x.key, key) then Some(x) else None;
    assert LastMutation([x, y], key) == if SameEnvVariable(y.key, key) then Some(y) else LastMutation([x], key);
  }

  lemma LastOfTargeting(pin: string, apiKey: string)
    ensures var ms := Targeting(pin, apiKey);
            && LastMutation(ms, P.BACKEND_URL) == Some(ms[0])
            && LastMutation(ms, P.CDM_URL) == Some(ms[1])
            && LastMutation(ms, P.API_KEY) == Some(ms[2])
  {
    var ms := Targeting(pin, apiKey);
    R.ThreeVariables();
    SameEnvVariableIsEquivalence(P.BACKEND_URL, P.BACKEND_URL, P.BACKEND_URL);
    SameEnvVariableIsEquivalence(P.CDM_URL, P.CDM_URL, P.CDM_URL);
    SameEnvVariableIsEquivalence(P.API_KEY, P.API_KEY, P.API_KEY);
    LastOfThree(ms[0], ms[1], ms[2], P.BACKEND_URL);
    LastOfThree(ms[0], ms[1], ms[2], P.CDM_URL);
    LastOfThree(ms[0], ms[1], ms[2], P.API_KEY);
  }

  /** Whatever the file held, it then holds the pin, that deployment's own endpoint and the key,
      for every reader alike. */
  lemma TargetingIsRead(before: seq<string>, after: seq<string>, pin: string, apiKey: string)
    requires AllAcceptable(Targeting(pin, apiKey)) && D.MeansTheBatch(before, Targeting(pin, apiKey), after)
    ensures AllRead(after, "BLOCKS_BACKEND_URL", pin) && AllRead(after, "BLOCKS_CDM_URL", P.EndpointFor(pin))
    ensures apiKey != "" ==> AllRead(after, "BLOCKS_API_KEY", apiKey)
  {
    var ms := Targeting(pin, apiKey);
    LastOfTargeting(pin, apiKey);
    R.PinsAreInNamespace();
    assert ms[0] in ms && ms[1] in ms && ms[2] in ms;
    ReadFromItsLines(after, P.BACKEND_URL, pin);
    ReadFromItsLines(after, P.CDM_URL, P.EndpointFor(pin));
    if apiKey != "" {
      ReadFromItsLines(after, P.API_KEY, apiKey);
    }
  }

  /** The .env after a login that wrote it pairs the key with the deployment it was minted at. */
  ghost predicate PairsKeyWith(b: Build, lines: seq<string>, apiKey: string, minted: Deployment) {
    exists pin ::
      && AllRead(lines, P.BACKEND_URL, pin) && AllRead(lines, P.CDM_URL, P.EndpointFor(pin))
      && AllRead(lines, P.API_KEY, apiKey)
      && SameDeployment(b, minted, Described(pin))
  }

  lemma PairedUnlessBlind(b: Build, env: Env, c: Contexts, remote: Option<string>, choice: L.Choice, apiKey: string,
                          before: seq<string>, after: seq<string>)
    requires Sound(b) && Loaded(c) && L.ValidChoice(c, choice) && apiKey != ""
    requires L.MintedAt(b, InvokedIn(env, c, remote), choice).Some?
    requires var ms := Targeting(LoginBackendPin(b, InvokedIn(env, c, remote), choice), apiKey);
             AllAcceptable(ms) && D.MeansTheBatch(before, ms, after)
    ensures PairsKeyWith(b, after, apiKey, L.MintedAt(b, InvokedIn(env, c, remote), choice).value)
       <==> !Blind(b, env, c, choice)
  {
    var v := InvokedIn(env, c, remote);
    var pin, minted := LoginBackendPin(b, v, choice), L.MintedAt(b, v, choice).value;
    TargetingIsRead(before, after, pin, apiKey);
    PinDescribesTheMint(b, env, c, remote, choice);
    if PairsKeyWith(b, after, apiKey, minted) {
      var other :| AllRead(after, P.BACKEND_URL, other) && SameDeployment(b, minted, Described(other));
      assert other == pin;
    }
  }

  /** There is always the key to write. */
  lemma TargetingWrites(pin: string, apiKey: string)
    ensures forall was :: !D.NothingToWrite(was, Targeting(pin, apiKey))
  {
    var ms := Targeting(pin, apiKey);
    assert AssignedKeys(ms[1..][1..]) == [P.API_KEY] + AssignedKeys(ms[1..][1..][1..]);
    assert AssignedKeys(ms) != [];
  }

  /** maybeWriteEnv, once it is settled that the file is written: the key and its targeting, or
      nothing. */
  method MaybeWriteEnv(b: Build, env: Env, c: Contexts, remote: Option<string>, choice: L.Choice, apiKey: string,
                       disk: D.Disk, path: string, os: D.OperatingSystem) returns (r: D.Outcome)
    requires Sound(b) && Loaded(c) && L.ValidChoice(c, choice) && apiKey != ""
    requires L.MintedAt(b, InvokedIn(env, c, remote), choice).Some?
    requires disk.Ready(path, os.tmp, os.node)
    modifies disk
    ensures disk.Valid() && D.Quiet(disk.Now(), path)
    ensures !r.Done? ==> D.Found(disk.Now(), path) == old(D.Found(disk.Now(), path))
    ensures var pin := LoginBackendPin(b, InvokedIn(env, c, remote), choice);
            r.Done? <==> && !(os.unreadable && path in old(disk.names)) && AllAcceptable(Targeting(pin, apiKey))
                         && D.Completes(os.faults, D.NewContent(D.BytesOf(old(D.Found(disk.Now(), path))),
                                                                Targeting(pin, apiKey)))
    ensures r.Done? ==>
      (PairsKeyWith(b, R.EnvLines(disk.Now(), path), apiKey, L.MintedAt(b, InvokedIn(env, c, remote), choice).value)
       <==> !Blind(b, env, c, choice))
  {
    var pin := LoginBackendPin(b, InvokedIn(env, c, remote), choice);
    var endpoint := P.EndpointFor(pin);
    ghost var before := R.EnvLines(disk.Now(), path);
    var mutations := [EnvMutation(P.BACKEND_URL, pin, pin == ""), EnvMutation(P.CDM_URL, endpoint, endpoint == ""),
                      EnvMutation(P.API_KEY, apiKey, false)];
    TargetingWrites(pin, apiKey);
    var removed;
    r, removed := disk.ApplyEnvAt(path, mutations, os);
    if r.Done? {
      PairedUnlessBlind(b, env, c, remote, choice, apiKey, before, R.EnvLines(disk.Now(), path));
    }
  }
}
