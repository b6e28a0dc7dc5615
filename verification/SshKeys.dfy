/** The SSH key pair of a cluster's nodes: generated and persisted by the KubevirtCluster controller, fetched
    by every KubevirtMachine reconcile. */
module SshKeys {
  import opened Common

  /** Key material, known by the generation it comes from. */
  datatype Key = Public(generation: nat) | Private(generation: nat)

  /** The data of a secret, under its keys pub and key. */
  datatype Data = Data(pub: Option<Key>, key: Option<Key>)

  /** The cluster: its secrets by name, and the secret name in KubevirtCluster.Spec.SshKeys. */
  datatype State = State(secrets: map<string, Data>, secretName: Option<string>)

  const SUFFIX := "-ssh-keys"

  function OwnSecret(cluster: string): string {
    cluster + SUFFIX
  }

  // ---------- Reading ----------

  function KeysDataSecret(st: State, read: bool): Option<Data> {
    if st.secretName.None? || st.secretName.value == "" || !read || st.secretName.value !in st.secrets
    then None else Some(st.secrets[st.secretName.value])
  }

  predicate Persisted(st: State, read: bool) {
    var d := KeysDataSecret(st, read);
    d.Some? && d.value.pub.Some? && d.value.key.Some?
  }

  datatype KeyFetch = Fetched(pub: Key, key: Key) | NotPersisted | Crashed

  /** Two reads: the check, and then the data, whose error is not looked at. */
  function FetchKeys(st: State, read1: bool, read2: bool): KeyFetch {
    if !Persisted(st, read1) then NotPersisted else
    if !read2 then Crashed else
    var d := KeysDataSecret(st, read2).value;
    Fetched(d.pub.value, d.key.value)
  }

  // ---------- Writing ----------

  /** Creates the secret or updates it; a private key that is there is never replaced. */
  function Mutated(secrets: map<string, Data>, name: string, pub: Key, key: Key): map<string, Data> {
    if name in secrets && secrets[name].key.Some? then secrets
    else secrets[name := Data(Some(pub), Some(key))]
  }

  /** One key step of the KubevirtCluster reconcile, and the deferred patch of the KubevirtCluster. */
  datatype Choices = Choices(read: bool, generated: Option<nat>, persist: Outcome, patch: Outcome)

  function ReconcileKeys(cluster: string, st: State, ch: Choices): State {
    if Persisted(st, ch.read) || ch.generated.None? || ch.persist.Refused? then st else
    var g := ch.generated.value;
    var secrets := Mutated(st.secrets, OwnSecret(cluster), Public(g), Private(g));
    State(secrets, if ch.persist.Done? && !ch.patch.Refused? then Some(OwnSecret(cluster)) else st.secretName)
  }

  /** `ClusterNodeSshKeys`, with the cluster it reads and writes. */
  class ClusterNodeSshKeys {
    const cluster: string
    var secrets: map<string, Data>
    var secretName: Option<string>   // in the KubevirtCluster in memory
    var publicKey: Option<Key>
    var privateKey: Option<Key>

    function View(): State
      reads this
    {
      State(secrets, secretName)
    }

    constructor (cluster: string, st: State)
      ensures this.cluster == cluster && View() == st && publicKey == None && privateKey == None
    {
      this.cluster := cluster;
      secrets, secretName := st.secrets, st.secretName;
      publicKey, privateKey := None, None;
    }

    method GenerateNewKeys(generated: Option<nat>) returns (ok: bool)
      modifies this`publicKey, this`privateKey
      ensures ok <==> generated.Some?
      ensures if ok then publicKey == Some(Public(generated.value)) && privateKey == Some(Private(generated.value))
              else publicKey == old(publicKey) && privateKey == old(privateKey)
    {
      if generated.None? {
        return false;
      }
      publicKey := Some(Public(generated.value));
      privateKey := Some(Private(generated.value));
      return true;
    }

    method PersistKeysToSecret(outcome: Outcome) returns (ok: bool)
      modifies this`secrets
      ensures ok <==> publicKey.Some? && privateKey.Some? && outcome.Done?
      ensures secrets == if publicKey.Some? && privateKey.Some? && !outcome.Refused?
                         then Mutated(old(secrets), OwnSecret(cluster), publicKey.value, privateKey.value)
                         else old(secrets)
    {
      if publicKey.None? || privateKey.None? {
        return false;
      }
      var name := OwnSecret(cluster);
      var data := if name in secrets then secrets[name] else Data(None, None);
      if data.key.None? {
        data := Data(publicKey, privateKey);
      }
      if !outcome.Refused? {
        secrets := secrets[name := data];
      }
      return outcome.Done?;
    }

    method IsPersistedToSecret(read: bool) returns (persisted: bool)
      ensures persisted <==> Persisted(View(), read)
    {
      var d := KeysDataSecret(View(), read);
      if d.None? {
        return false;
      }
      return d.value.pub.Some? && d.value.key.Some?;
    }

    method FetchPersistedKeysFromSecret(read1: bool, read2: bool) returns (r: KeyFetch)
      modifies this`publicKey, this`privateKey
      ensures r == FetchKeys(View(), read1, read2)
      ensures r.Fetched? ==> publicKey == Some(r.pub) && privateKey == Some(r.key)
      ensures !r.Fetched? ==> publicKey == old(publicKey) && privateKey == old(privateKey)
    {
      var persisted := IsPersistedToSecret(read1);
      if !persisted {
        return NotPersisted;
      }
      var d := KeysDataSecret(View(), read2);
      if d.None? {
        return Crashed;
      }
      publicKey := d.value.pub;
      privateKey := d.value.key;
      return Fetched(publicKey.value, privateKey.value);
    }

    /** The caller's step: the secret's name is recorded only when persisting succeeded. */
    method GenerateAndPersist(ch: Choices) returns (ok: bool)
      modifies this
      ensures State(secrets, if ch.patch.Refused? then old(secretName) else secretName) ==
              ReconcileKeys(cluster, old(View()), ch)
      ensures ok <==> Persisted(old(View()), ch.read) || (ch.generated.Some? && ch.persist.Done?)
    {
      var persisted := IsPersistedToSecret(ch.read);
      if persisted {
        return true;
      }
      ok := GenerateNewKeys(ch.generated);
      if !ok {
        return;
      }
      ok := PersistKeysToSecret(ch.persist);
      if ok {
        secretName := Some(OwnSecret(cluster));
      }
    }
  }

  // ---------- Over whole runs ----------

  function Run(cluster: string, st: State, passes: seq<Choices>): State
    decreases |passes|
  {
    if passes == [] then st else Run(cluster, ReconcileKeys(cluster, st, passes[0]), passes[1..])
  }

  /** Both halves come from one generation. */
  predicate Matched(d: Data) {
    d.pub.Some? && d.key.Some? && d.pub.value.Public? && d.key.value.Private? &&
    d.pub.value.generation == d.key.value.generation
  }

  predicate Sound(cluster: string, st: State) {
    && (OwnSecret(cluster) in st.secrets ==> Matched(st.secrets[OwnSecret(cluster)]))
    && (st.secretName.Some? ==> st.secretName.value == OwnSecret(cluster) && OwnSecret(cluster) in st.secrets)
  }

  /** From an absent secret on, over every sequence of retries, lost patches and new generations, the stored
      pair comes from one generation and never changes once it is there. */
  lemma {:induction false} ThePairIsWriteOnce(cluster: string, st: State, passes: seq<Choices>)
    requires Sound(cluster, st)
    ensures var e := Run(cluster, st, passes);
            && Sound(cluster, e)
            && (OwnSecret(cluster) in st.secrets ==>
                  OwnSecret(cluster) in e.secrets && e.secrets[OwnSecret(cluster)] == st.secrets[OwnSecret(cluster)])
            && (st.secretName.Some? ==> e.secretName == st.secretName)
    decreases |passes|
  {
    if passes != [] {
      ThePairIsWriteOnce(cluster, ReconcileKeys(cluster, st, passes[0]), passes[1..]);
    }
  }

  /** Any two fetches of a run, however far apart, return the same matched pair. */
  lemma EveryFetchReturnsThePair(cluster: string, st: State, before: seq<Choices>, between: seq<Choices>,
                                 r1: bool, r2: bool, r3: bool, r4: bool)
    requires OwnSecret(cluster) !in st.secrets && st.secretName.None?
    ensures var s1 := Run(cluster, st, before);
            var s2 := Run(cluster, s1, between);
            var f1, f2 := FetchKeys(s1, r1, r2), FetchKeys(s2, r3, r4);
            && (f1.Fetched? ==> Matched(Data(Some(f1.pub), Some(f1.key))))
            && (f1.Fetched? && f2.Fetched? ==> f1 == f2)
            && (f1.Fetched? && r3 && r4 ==> f2.Fetched?)
  {
    ThePairIsWriteOnce(cluster, st, before);
    ThePairIsWriteOnce(cluster, Run(cluster, st, before), between);
  }

  /** The KubevirtCluster names a secret that holds both keys. */
  predicate Available(st: State) {
    && st.secretName.Some? && st.secretName.value != "" && st.secretName.value in st.secrets
    && st.secrets[st.secretName.value].pub.Some? && st.secrets[st.secretName.value].key.Some?
  }

  /** What a fetch returns, exactly: both keys of the named secret, if both reads succeed. */
  lemma FetchIff(st: State, read1: bool, read2: bool)
    ensures FetchKeys(st, read1, read2) ==
            if !read1 || !Available(st) then NotPersisted
            else if !read2 then Crashed
            else var d := st.secrets[st.secretName.value]; Fetched(d.pub.value, d.key.value)
  {
  }

  /** What a reconcile of the keys leaves behind, exactly. Keys that are found are left alone. Otherwise a new pair
      goes to the cluster's own secret, unless that has a private key, and the secret's name is recorded once the
      write is acknowledged and the patch of the KubevirtCluster stored. */
  lemma ReconcileKeysLeaves(cluster: string, st: State, ch: Choices)
    ensures var own := cluster + "-ssh-keys";
            var needed := !(ch.read && Available(st)) && ch.generated.Some?;
            var half := own in st.secrets && st.secrets[own].key.Some?;
            var e := ReconcileKeys(cluster, st, ch);
            && e.secrets ==
               (if needed && !ch.persist.Refused? && !half
                then st.secrets[own := Data(Some(Public(ch.generated.value)), Some(Private(ch.generated.value)))]
                else st.secrets)
            && e.secretName == (if needed && ch.persist.Done? && !ch.patch.Refused? then Some(own) else st.secretName)
  {
  }

  /** A fetch crashes exactly when the second read fails after the first one found the keys. */
  lemma FetchCrashesIff(st: State, read1: bool, read2: bool)
    ensures FetchKeys(st, read1, read2).Crashed? <==> Persisted(st, read1) && !read2
  {
  }

  /** A private key without its public half, which the controller itself never writes. */
  predicate Half(cluster: string, st: State) {
    && OwnSecret(cluster) in st.secrets
    && st.secrets[OwnSecret(cluster)].key.Some? && st.secrets[OwnSecret(cluster)].pub.None?
    && (st.secretName.Some? ==> st.secretName.value == OwnSecret(cluster))
  }

  /** Such a secret is never completed, however often the cluster is reconciled, so no fetch succeeds. */
  lemma {:induction false} HalfASecretStaysHalf(cluster: string, st: State, passes: seq<Choices>)
    requires Half(cluster, st)
    ensures Half(cluster, Run(cluster, st, passes))
    ensures forall r1, r2 :: FetchKeys(Run(cluster, st, passes), r1, r2).NotPersisted?
    decreases |passes|
  {
    if passes != [] {
      HalfASecretStaysHalf(cluster, ReconcileKeys(cluster, st, passes[0]), passes[1..]);
    }
  }

  /** A reconcile whose calls all succeed makes the pair available if and only if the secret was not half
      filled. */
  lemma HealthyReconcilePersistsIff(cluster: string, st: State, g: nat)
    requires st.secretName.Some? ==> st.secretName.value == OwnSecret(cluster)
    ensures Persisted(ReconcileKeys(cluster, st, Choices(true, Some(g), Done, Done)), true) <==>
            !Half(cluster, st)
  {
  }
}
