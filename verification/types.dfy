/** The records the operator and the per-node daemon share: BootcNode, Node, NodeClaim and
    the image-match relation both sides use to decide that a host runs the wanted image. */
module Types {

  datatype Option<+T> = None | Some(value: T)

  datatype Tri = True | False | Unknown

  type Name = string
  type Pool = string
  type Digest = string

  /** A parsed image reference; only the digest matters to the protocol. */
  datatype Ref = Digested(repo: string, digest: Digest) | Undigested(repo: string) | Unparseable

  /** A boot entry as reported by the host: its pullspec and the resolved content digest. */
  datatype ImageInfo = ImageInfo(pullspec: Ref, contentDigest: Digest)

  predicate InfoMatchesDigest(info: Option<ImageInfo>, digest: Digest) {
    info.Some? &&
    (info.value.contentDigest == digest ||
     (info.value.pullspec.Digested? && info.value.pullspec.digest == digest))
  }

  /** Annotation keys used on BootcNodes (the first seven) and on Nodes and NodeClaims. */
  datatype Key =
    | InRebootSlot
    | WasCordoned
    | OwnsNodeRepair
    | OwnsNodeDisrupt
    | OwnsClaimRepair
    | OwnsClaimDisrupt
    | OwnsTaint
    | DoNotRepair
    | DoNotDisrupt
    | OtherKey(name: string)

  type Annotations = map<Key, string>

  function Lookup(a: Annotations, k: Key): Option<string> {
    if k in a then Some(a[k]) else None
  }

  /** Karpenter honours only the literal value "true". */
  predicate Honoured(a: Annotations, k: Key) {
    k in a && a[k] == "true"
  }

  datatype Reason = ReasonIdle | ReasonStaging | ReasonStaged | ReasonRebooting | ReasonOther

  datatype Condition = Condition(status: Tri, reason: Reason, since: int)

  datatype Status = Status(
    booted: Option<ImageInfo>,
    staged: Option<ImageInfo>,
    idle: Option<Condition>,
    degraded: bool)

  const NO_STATUS := Status(None, None, None, false)

  /** `approved` is desiredImageState == Booted. */
  datatype BootcNode = BootcNode(
    owner: Option<Pool>,
    desired: Ref,
    approved: bool,
    annotations: Annotations,
    status: Status)

  datatype TaintKey = OsNotReady | KarpenterRebooting | KarpenterDisrupted | OtherTaint(name: string)
  datatype TaintEffect = NoSchedule | OtherEffect
  datatype Taint = Taint(key: TaintKey, effect: TaintEffect)

  /** Who put the managed label on a Node, if anybody. */
  datatype Label = Unlabelled | ByOperator | ByOthers

  /** `selectedBy` is the set of pools whose selector matches the Node's labels. */
  datatype Node = Node(
    unschedulable: bool,
    annotations: Annotations,
    taints: seq<Taint>,
    ready: Tri,
    deleting: bool,
    managed: Label,
    selectedBy: set<Pool>)

  datatype Claim = Claim(
    annotations: Annotations,
    deleting: bool,
    rebooting: bool,
    disrupted: bool,
    terminating: bool)

  /** What looking up the NodeClaim that owns a Node yields. */
  datatype ClaimRef = NoRef | CrdMissing | Gone | Found(claim: Claim)

  predicate HasStartupTaint(taints: seq<Taint>) {
    Taint(OsNotReady, NoSchedule) in taints
  }

  function WithoutStartupTaint(taints: seq<Taint>): (r: seq<Taint>)
    ensures !HasStartupTaint(r)
    ensures !HasStartupTaint(taints) ==> r == taints
    ensures forall t | t in taints && t != Taint(OsNotReady, NoSchedule) :: t in r
  {
    if taints == [] then []
    else if taints[0] == Taint(OsNotReady, NoSchedule) then WithoutStartupTaint(taints[1..])
    else [taints[0]] + WithoutStartupTaint(taints[1..])
  }
}
