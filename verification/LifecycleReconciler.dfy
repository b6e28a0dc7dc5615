/** The KubevirtMachine reconciler, updating the machine in memory and the clusters field by field, proved
    against the functions of `Lifecycle`. */
module LifecycleReconciler {
  import opened Common
  import opened Eviction
  import opened Lifecycle
  import EvictionMachine
  import SshKeys

  class Reconciler {
    const config: Config

    // The clusters.
    var stored: Option<KubevirtMachine>
    var vms: set<Place>
    var created: bool
    var bootstrapData: bool
    var keys: SshKeys.State
    var eviction: World

    // The KubevirtMachine the request works on, in memory.
    var machine: KubevirtMachine

    function Clusters(): State
      reads this
    {
      State(stored, vms, created, bootstrapData, keys, eviction)
    }

    function View(): Flight
      reads this
    {
      Flight(machine, Clusters())
    }

    constructor (c: Config, st: State)
      ensures config == c && Clusters() == st
    {
      config := c;
      stored, vms, created, bootstrapData, keys, eviction :=
        st.machine, st.vms, st.created, st.bootstrapData, st.keys, st.eviction;
      machine := KubevirtMachine(false, false, None, None, false, false, None, false, false);
    }

    method DefaultSecretRef()
      modifies this`machine
      ensures machine == old(machine).(secretRef := Defaulted(config, old(machine).secretRef))
    {
      if machine.secretRef.None? {
        machine := machine.(secretRef := config.clusterRef);
      }
    }

    /** Looks for the SSH keys and fetches them; None when the pass may go on. */
    method FetchKeys(ssh: KeyReads) returns (done: Option<Result>)
      ensures done == FetchNodeKeys(keys, ssh)
    {
      if ssh.external {
        return None;
      }
      var nodeKeys := new SshKeys.ClusterNodeSshKeys(config.clusterName, keys);
      var persisted := nodeKeys.IsPersistedToSecret(ssh.check);
      if !persisted {
        return Some(Requeue(10000));
      }
      var fetched := nodeKeys.FetchPersistedKeysFromSecret(ssh.recheck, ssh.data);
      match fetched
      case NotPersisted => return Some(Failed(0));
      case Crashed => return Some(Crashed);
      case Fetched(_, _) => return None;
    }

    method PrepareInfra(ch: Choices) returns (done: Option<Result>)
      modifies this
      ensures (View(), done) == Prepare(config, old(View()), ch)
    {
      hide VmPlace, FetchNodeKeys;
      if !bootstrapData {
        return Some(Requeue(0));
      }
      done := FetchKeys(ch.ssh);
      if done.Some? {
        return;
      }
      DefaultSecretRef();
      if ch.client.LookupError? || VmPlace(config, machine.secretRef).None? {
        return Some(Failed(10000));
      }
      if ch.client.NotYet? {
        return Some(Requeue(10000));
      }
      if !ch.secret {
        return Some(Failed(10000));
      }
      if !ch.helper || !ch.terminalCheck {
        return Some(Failed(0));
      }
      return None;
    }

    method LaunchVm(place: Place, ch: Choices) returns (done: Option<Result>)
      modifies this
      ensures (View(), done) == Launch(config, old(View()), place, ch)
    {
      var terminal := place in vms && eviction.vmi.Some? && ch.terminal;
      if !terminal && place !in vms {
        machine := machine.(ready := false);
        if !config.instanceTemplate {
          return Some(Crashed);
        }
        if ch.create.Refused? {
          return Some(Failed(0));
        }
        vms, created := vms + {place}, true;
        return Some(if ch.create.Done? then Requeue(20000) else Failed(0));
      }
      if eviction.vmi.None? || !eviction.vmi.value.ready {
        machine := machine.(ready := false);
        return Some(Requeue(20000));
      }
      if eviction.vmi.value.address == "" {
        if !machine.knownIp {
          machine := machine.(ready := false);
        }
        return Some(Requeue(20000));
      }
      return None;
    }

    /** Everything before the drain call; None when the pass goes on to it. */
    method ProvisionVm(ch: Choices) returns (done: Option<Result>)
      modifies this
      ensures (View(), done) == Provision(config, old(View()), ch)
    {
      done := PrepareInfra(ch);
      if done.None? {
        done := LaunchVm(VmPlace(config, machine.secretRef).value, ch);
      }
    }

    method DrainVm(original: KubevirtMachine, ch: Choices) returns (r: Result)
      modifies this
      ensures (View(), r) == Drain(old(View()), original, ch)
    {
      var external := new EvictionMachine.Machine(eviction, ch.drain);
      r := external.DrainIfNeeded(true);
      eviction := external.View().world;
      if ch.reload {
        machine := original;
      }
    }

    method CheckBootstrapped(ch: Choices) returns (booted: bool)
      modifies this`machine
      ensures (machine, booted) == CheckBootstrap(old(machine), ch)
    {
      if ch.checkable {
        if machine.bootstrapped != Some(true) {
          if !ch.booted {
            machine := machine.(bootstrapped := Some(false), ready := false);
            return false;
          }
          machine := machine.(bootstrapped := Some(true));
        }
      } else if machine.bootstrapped.None? {
        machine := machine.(bootstrapped := Some(true));
      }
      return true;
    }

    method ReportStatus(ready: bool, ch: Choices)
      modifies this`machine
      ensures machine == Report(config, old(machine), ready, ch)
    {
      hide ProviderId;
      machine := machine.(knownIp := ch.internalIp);
      if machine.providerId.None? || machine.providerId.value == "" {
        machine := machine.(providerId := Some(ProviderId(config)));
      }
      machine := machine.(ready := ready);
      if ready {
        machine := machine.(provisioned := true);
      }
    }

    method FinishPass(ready: bool, ch: Choices) returns (r: Result)
      modifies this`machine
      ensures (machine, r) == Finish(config, old(machine), ready, ch)
    {
      var booted := CheckBootstrapped(ch);
      if !booted {
        return Requeue(10000);
      }
      ReportStatus(ready, ch);
      return Requeue(if ch.migratableKnown then 0 else 10000);
    }

    method ReconcileNormally(original: KubevirtMachine, ch: Choices) returns (r: Result)
      modifies this
      ensures (View(), r) == ReconcileNormal(config, old(View()), original, ch)
    {
      var done := ProvisionVm(ch);
      if done.Some? {
        return done.value;
      }
      var ready := eviction.vmi.Some? && eviction.vmi.value.ready;
      r := DrainVm(original, ch);
      if r != Requeue(0) {
        return;
      }
      r := FinishPass(ready, ch);
    }

    method UpdateNode(ch: Choices) returns (r: Result)
      modifies this
      ensures (View(), r) == UpdateNodeProviderId(old(View()), ch)
    {
      if machine.nodeUpdated {
        return Requeue(0);
      }
      if !ch.guest {
        return Requeue(10000);
      }
      if !ch.nodeGet {
        return Failed(5000);
      }
      if eviction.node.None? {
        return Requeue(10000);
      }
      if machine.providerId.None? {
        return Crashed;
      }
      if eviction.node.value.providerId == machine.providerId.value {
        return Requeue(0);
      }
      if ch.nodePatch.Refused? {
        return Failed(5000);
      }
      eviction := eviction.(node := Some(eviction.node.value.(providerId := machine.providerId.value)));
      if ch.nodePatch.Lost? {
        return Failed(5000);
      }
      machine := machine.(nodeUpdated := true);
      return Requeue(0);
    }

    method PatchMachine(patch: Outcome)
      modifies this`stored
      ensures Clusters() == PatchBack(old(View()), patch)
    {
      if !patch.Refused? {
        stored := Some(machine);
      }
    }

    method ReconcileDeletion(ch: Choices) returns (r: Result)
      requires stored == Some(machine)
      modifies this
      ensures (Clusters(), r) == ReconcileDelete(config, old(Clusters()), old(machine), ch)
    {
      var place := VmPlace(config, machine.secretRef);
      if ch.client.LookupError? || place.None? {
        return Failed(10000);
      }
      if ch.client.NotYet? {
        return Requeue(10000);
      }
      if !ch.secret || !ch.helper {
        return Failed(10000);
      }
      if place.value in vms {
        if !ch.vmGet || ch.vmDelete.Refused? {
          return Failed(10000);
        }
        vms := vms - {place.value};
        if ch.vmDelete.Lost? {
          return Failed(10000);
        }
      }
      machine := machine.(finalizer := false);
      PatchMachine(ch.patch);
      assert old(vms) - {place.value} == vms;
      return if ch.patch.Done? then Requeue(0) else Failed(0);
    }

    method ReconcileMachine(ch: Choices) returns (r: Result)
      modifies this
      ensures (Clusters(), r) == Reconcile(config, old(Clusters()), ch)
    {
      if stored.None? {
        return Requeue(0);
      }
      if !ch.owner.Found? {
        return Without(ch.owner);
      }
      machine := stored.value;
      if machine.deleting {
        r := ReconcileDeletion(ch);
        return;
      }
      if !ch.cluster.Found? {
        return Without(ch.cluster);
      }
      if !machine.finalizer {
        machine := machine.(finalizer := true);
        r := Requeue(0);
      } else if !ch.infraReady {
        r := Requeue(0);
      } else {
        r := ReconcileNormally(stored.value, ch);
        if r == Requeue(0) {
          r := UpdateNode(ch);
        }
      }
      PatchMachine(ch.patch);
      if r.Requeue? && !ch.patch.Done? {
        r := Failed(r.after);
      }
    }
  }
}
