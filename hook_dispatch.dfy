/**
 * Interface-identity dispatch of the hooking layer: a native interface
 * instance together with its interface name/version string selects which
 * kind of hook object intercepts it, or none at all.
 */
module HookDispatch {
  import opened Wrappers

  /** An opaque pointer to a native interface instance. */
  type InterfaceRef = nat

  /** The hook classes, one per supported interface version. */
  datatype HookKind =
    | DriverContextHooks
    | ServerDriverHost004Hooks
    | ServerDriverHost005Hooks
    | ServerDriverHost006Hooks
    | TrackedDeviceServerDriver005Hooks

  /**
   * The hook object a kind's factory builds around an interface instance; the
   * function-table patching the factory performs is not modelled.
   */
  datatype InterfaceHooks = InterfaceHooks(kind: HookKind, interfaceRef: InterfaceRef)

  /** The interface name/version string each hook kind is registered under. */
  function InterfaceIdentity(k: HookKind): (identity: string)
  {
    match k
    case DriverContextHooks => "IVRDriverContext"
    case ServerDriverHost004Hooks => "IVRServerDriverHost_004"
    case ServerDriverHost005Hooks => "IVRServerDriverHost_005"
    case ServerDriverHost006Hooks => "IVRServerDriverHost_006"
    case TrackedDeviceServerDriver005Hooks => "ITrackedDeviceServerDriver_005"
  }

  /**
   * hookInterface: compare the identity string exactly against each supported
   * interface in turn; build that kind's hooks around the instance, or return
   * the empty handle when nothing matches.
   */
  function HookInterface(interfaceRef: InterfaceRef, interfaceVersion: string): (r: Option<InterfaceHooks>)
    ensures r.Some? ==> InterfaceIdentity(r.value.kind) == interfaceVersion && r.value.interfaceRef == interfaceRef
    ensures r.None? <==> forall k :: InterfaceIdentity(k) != interfaceVersion
  {
    if interfaceVersion == "IVRDriverContext" then
      Some(InterfaceHooks(DriverContextHooks, interfaceRef))
    else if interfaceVersion == "IVRServerDriverHost_004" then
      Some(InterfaceHooks(ServerDriverHost004Hooks, interfaceRef))
    else if interfaceVersion == "IVRServerDriverHost_005" then
      Some(InterfaceHooks(ServerDriverHost005Hooks, interfaceRef))
    else if interfaceVersion == "IVRServerDriverHost_006" then
      Some(InterfaceHooks(ServerDriverHost006Hooks, interfaceRef))
    else if interfaceVersion == "ITrackedDeviceServerDriver_005" then
      Some(InterfaceHooks(TrackedDeviceServerDriver005Hooks, interfaceRef))
    else
      None
  }

  /** Distinct hook kinds are registered under distinct strings, so at most one branch can match. */
  lemma IdentitiesDistinct(k1: HookKind, k2: HookKind)
    requires InterfaceIdentity(k1) == InterfaceIdentity(k2)
    ensures k1 == k2
  {
  }

  /** Every supported identity string yields the hooks of exactly its own kind, around the given instance. */
  lemma RecognizesEveryIdentity(interfaceRef: InterfaceRef, k: HookKind)
    ensures HookInterface(interfaceRef, InterfaceIdentity(k)) == Some(InterfaceHooks(k, interfaceRef))
  {
  }

  /** No supported identity is a proper prefix of another one. */
  lemma NoIdentityIsPrefixOfAnother(k1: HookKind, k2: HookKind, n: nat)
    requires n < |InterfaceIdentity(k1)|
    ensures InterfaceIdentity(k1)[..n] != InterfaceIdentity(k2)
  {
    var s1, s2 := InterfaceIdentity(k1), InterfaceIdentity(k2);
    if |s2| == n {
      // s2 is shorter than s1, and every shorter identity already differs from the longer ones early on.
      assert s1[1] != s2[1] || s1[3] != s2[3];
      assert s1[..n][1] == s1[1] && s1[..n][3] == s1[3];
    }
  }

  /** A proper prefix of a supported identity is not recognised: matching is exact. */
  lemma PrefixesUnrecognized(interfaceRef: InterfaceRef, k: HookKind, n: nat)
    requires n < |InterfaceIdentity(k)|
    ensures HookInterface(interfaceRef, InterfaceIdentity(k)[..n]) == None
  {
    forall k2 ensures InterfaceIdentity(k2) != InterfaceIdentity(k)[..n] {
      NoIdentityIsPrefixOfAnother(k, k2, n);
    }
  }

  /** A supported identity with anything appended is not recognised either. */
  lemma ExtensionsUnrecognized(interfaceRef: InterfaceRef, k: HookKind, suffix: string)
    requires suffix != ""
    ensures HookInterface(interfaceRef, InterfaceIdentity(k) + suffix) == None
  {
    var s := InterfaceIdentity(k);
    forall k2 ensures InterfaceIdentity(k2) != s + suffix {
      if InterfaceIdentity(k2) == s + suffix {
        assert InterfaceIdentity(k2)[..|s|] == s;
        NoIdentityIsPrefixOfAnother(k2, k, |s|);
      }
    }
  }

}
