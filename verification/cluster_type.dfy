/** The generated `Cluster` type of the clusters management API: every
    optional attribute is guarded by its own bit of a 64-bit presence bitmap,
    bit 0 marks a link, and accessors report a value only when its bit is set.
    Also the `ClusterList` container.

    The bitmap is represented by the set of positions of its one bits: bit `i`
    stands for the mask `2^i` of the generated code, so `bitmap_&m != 0` is
    membership, `bitmap_ |= m` is union and `bitmap_&^1 == 0` says that no
    position but 0 is present. */
module ClusterType {
  import opened Results

  const ClusterKind: string := "Cluster"
  const ClusterLinkKind: string := "ClusterLink"
  const ClusterNilKind: string := "ClusterNil"

  /** A 64-bit presence bitmap. */
  type Bitmap = s: set<nat> | forall i :: i in s ==> i < 64

  /** The position of the link flag. */
  const LinkBit: nat := 0

  /** The attributes of a cluster, in the order of their bits. */
  datatype Attr =
    | Id | Href | Api | Aws | AwsInfrastructureAccessRoleGrants | Ccs | Dns | Gcp | Addons
    | BillingModel | CloudProvider | Console | CreationTimestamp | DisplayName | EtcdEncryption
    | ExpirationTimestamp | ExternalID | ExternalConfiguration | Flavour | Groups | HealthState
    | IdentityProviders | Ingresses | LoadBalancerQuota | MachinePools | Managed | Metrics
    | MultiAZ | Name | Network | NodeDrainGracePeriod | Nodes | OpenshiftVersion | Product
    | Properties | ProvisionShard | Region | State | Status | StorageQuota | Subscription | Version

  /** The bit of each attribute: the attribute's mask in the generated code is
      two to this power (`id` is 2, `version` is 4398046511104). */
  function Index(a: Attr): (i: nat)
    ensures 1 <= i <= 42
  {
    match a
    case Id => 1                     case Href => 2
    case Api => 3                    case Aws => 4
    case AwsInfrastructureAccessRoleGrants => 5
    case Ccs => 6                    case Dns => 7
    case Gcp => 8                    case Addons => 9
    case BillingModel => 10          case CloudProvider => 11
    case Console => 12               case CreationTimestamp => 13
    case DisplayName => 14           case EtcdEncryption => 15
    case ExpirationTimestamp => 16   case ExternalID => 17
    case ExternalConfiguration => 18 case Flavour => 19
    case Groups => 20                case HealthState => 21
    case IdentityProviders => 22     case Ingresses => 23
    case LoadBalancerQuota => 24     case MachinePools => 25
    case Managed => 26               case Metrics => 27
    case MultiAZ => 28               case Name => 29
    case Network => 30               case NodeDrainGracePeriod => 31
    case Nodes => 32                 case OpenshiftVersion => 33
    case Product => 34               case Properties => 35
    case ProvisionShard => 36        case Region => 37
    case State => 38                 case Status => 39
    case StorageQuota => 40          case Subscription => 41
    case Version => 42
  }

  /** The attribute a bit position belongs to, if any. */
  function AttrAt(i: int): Option<Attr>
  {
    match i
    case 1 => Some(Id)                     case 2 => Some(Href)
    case 3 => Some(Api)                    case 4 => Some(Aws)
    case 5 => Some(AwsInfrastructureAccessRoleGrants)
    case 6 => Some(Ccs)                    case 7 => Some(Dns)
    case 8 => Some(Gcp)                    case 9 => Some(Addons)
    case 10 => Some(BillingModel)          case 11 => Some(CloudProvider)
    case 12 => Some(Console)               case 13 => Some(CreationTimestamp)
    case 14 => Some(DisplayName)           case 15 => Some(EtcdEncryption)
    case 16 => Some(ExpirationTimestamp)   case 17 => Some(ExternalID)
    case 18 => Some(ExternalConfiguration) case 19 => Some(Flavour)
    case 20 => Some(Groups)                case 21 => Some(HealthState)
    case 22 => Some(IdentityProviders)     case 23 => Some(Ingresses)
    case 24 => Some(LoadBalancerQuota)     case 25 => Some(MachinePools)
    case 26 => Some(Managed)               case 27 => Some(Metrics)
    case 28 => Some(MultiAZ)               case 29 => Some(Name)
    case 30 => Some(Network)               case 31 => Some(NodeDrainGracePeriod)
    case 32 => Some(Nodes)                 case 33 => Some(OpenshiftVersion)
    case 34 => Some(Product)               case 35 => Some(Properties)
    case 36 => Some(ProvisionShard)        case 37 => Some(Region)
    case 38 => Some(State)                 case 39 => Some(Status)
    case 40 => Some(StorageQuota)          case 41 => Some(Subscription)
    case 42 => Some(Version)
    case _ => None
  }

  lemma AttrAtIndex(a: Attr)
    ensures AttrAt(Index(a)) == Some(a)
  {
  }

  lemma IndexAttrAt(i: int)
    requires 1 <= i <= 42
    ensures AttrAt(i).Some? && Index(AttrAt(i).value) == i
  {
  }

  /** Each attribute has a bit of its own, and none of them is the link bit. */
  lemma DistinctBits(a: Attr, b: Attr)
    ensures Index(a) != LinkBit
    ensures Index(a) == Index(b) ==> a == b
  {
    AttrAtIndex(a);
    AttrAtIndex(b);
  }

  /** The Go types of the attributes, as far as the model distinguishes them:
      strings and string enumerations, booleans, `int`, `time.Time`,
      `map[string]string`, and pointers to other generated types or lists. */
  datatype AttrKind = TextKind | FlagKind | IntegerKind | TimeKind | StringMapKind | ReferenceKind

  function KindOfAttr(a: Attr): AttrKind
  {
    match a
    case Id => TextKind
    case Href => TextKind
    case BillingModel => TextKind
    case DisplayName => TextKind
    case ExternalID => TextKind
    case HealthState => TextKind
    case Name => TextKind
    case OpenshiftVersion => TextKind
    case State => TextKind
    case EtcdEncryption => FlagKind
    case Managed => FlagKind
    case MultiAZ => FlagKind
    case LoadBalancerQuota => IntegerKind
    case CreationTimestamp => TimeKind
    case ExpirationTimestamp => TimeKind
    case Properties => StringMapKind
    case _ => ReferenceKind
  }

  /** An instant of `time.Time`, kept opaque. */
  datatype Instant = Instant(ticks: int)

  /** A pointer to a value of another generated type (or list), kept opaque. */
  datatype Ref = Ref(handle: nat)

  /** The value held by one attribute field; `None` is Go's `nil`. */
  datatype Value =
    | TextValue(text: string)
    | FlagValue(flag: bool)
    | IntegerValue(number: int)
    | TimeValue(instant: Instant)
    | MapValue(entries: Option<map<string, string>>)
    | RefValue(ref: Option<Ref>)

  function KindOfValue(v: Value): AttrKind
  {
    match v
    case TextValue(_) => TextKind
    case FlagValue(_) => FlagKind
    case IntegerValue(_) => IntegerKind
    case TimeValue(_) => TimeKind
    case MapValue(_) => StringMapKind
    case RefValue(_) => ReferenceKind
  }

  /** The range of Go's 64-bit `int`. */
  predicate IsInt64(n: int)
  {
    -0x8000_0000_0000_0000 <= n < 0x8000_0000_0000_0000
  }

  /** A value that a field of attribute `a` can hold in Go. */
  predicate Fits(a: Attr, v: Value)
  {
    KindOfValue(v) == KindOfAttr(a) && (v.IntegerValue? ==> IsInt64(v.number))
  }

  /** The zero value of the field of each attribute. */
  function Zero(a: Attr): (v: Value)
    ensures Fits(a, v)
  {
    match KindOfAttr(a)
    case TextKind => TextValue("")
    case FlagKind => FlagValue(false)
    case IntegerKind => IntegerValue(0)
    case TimeKind => TimeValue(Instant(0))
    case StringMapKind => MapValue(None)
    case ReferenceKind => RefValue(None)
  }

  /** A cluster object: the bitmap and the attribute fields. A field missing
      from `fields` holds its zero value. */
  datatype Cluster = Cluster(bitmap: Bitmap, fields: map<Attr, Value>)

  /** Go's static typing: every field holds a value of its own type. */
  predicate WellTyped(o: Cluster)
  {
    forall a :: a in o.fields ==> Fits(a, o.fields[a])
  }

  /** The empty object `&Cluster{}`. */
  const Blank: Cluster := Cluster({}, map[])

  /** The content of the field of attribute `a`, whatever the bitmap says. */
  function Field(o: Cluster, a: Attr): Value
  {
    if a in o.fields then o.fields[a] else Zero(a)
  }

  predicate HasBit(o: Cluster, a: Attr)
  {
    Index(a) in o.bitmap
  }

  /** The pair of accessors of attribute `a` on a possibly nil object: `GetX`
      returns the pair, `X` its first half. The flag is set exactly when the
      object is not nil and the attribute's bit is set; the value is then the
      field, and otherwise the zero value. */
  function Get(o: Option<Cluster>, a: Attr): (r: (Value, bool))
    ensures r.1 <==> o.Some? && HasBit(o.value, a)
    ensures r.1 ==> r.0 == Field(o.value, a)
    ensures !r.1 ==> r.0 == Zero(a)
  {
    if o.Some? && Index(a) in o.value.bitmap then (Field(o.value, a), true) else (Zero(a), false)
  }

  /** `Kind`: the nil kind for nil, the link kind when the link bit is set. */
  function Kind(o: Option<Cluster>): (k: string)
    ensures k == ClusterNilKind <==> o.None?
    ensures k == ClusterLinkKind <==> Link(o)
    ensures k == ClusterKind <==> o.Some? && !Link(o)
  {
    if o.None? then ClusterNilKind
    else if LinkBit in o.value.bitmap then ClusterLinkKind
    else ClusterKind
  }

  /** `Link`. */
  predicate Link(o: Option<Cluster>)
  {
    o.Some? && LinkBit in o.value.bitmap
  }

  /** `Empty`: nil, or no bit other than the link bit. */
  predicate Empty(o: Option<Cluster>)
  {
    o.None? || o.value.bitmap - {LinkBit} == {}
  }

  /** The bits the generated code can set: the link bit and the 42 attribute
      bits. */
  predicate UsesAttributeBits(o: Cluster)
  {
    forall i :: i in o.bitmap ==> i <= 42
  }

  /** `Empty` agrees with the accessors: an object whose bits are all known is
      empty exactly when no accessor reports a value. In particular a link
      carrying no attribute is empty. */
  lemma EmptyIffNoAttribute(o: Cluster)
    requires UsesAttributeBits(o)
    ensures Empty(Some(o)) <==> forall a :: !Get(Some(o), a).1
  {
    if !Empty(Some(o)) {
      var i :| i in o.bitmap - {LinkBit};
      IndexAttrAt(i);
      assert Get(Some(o), AttrAt(i).value).1;
    } else {
      forall a
        ensures !Get(Some(o), a).1
      {
        assert Index(a) in o.bitmap ==> Index(a) in o.bitmap - {LinkBit};
      }
    }
  }

  /** The store the JSON reader and the builder make for one attribute: set
      the field and add the attribute's bit. */
  function Store(o: Cluster, a: Attr, v: Value): (r: Cluster)
    ensures r.bitmap == o.bitmap + {Index(a)}
  {
    Cluster(o.bitmap + {Index(a)}, o.fields[a := v])
  }

  /** After storing an attribute its accessors report the stored value. */
  lemma GetStored(o: Cluster, a: Attr, v: Value)
    ensures Get(Some(Store(o, a, v)), a) == (v, true)
  {
  }

  /** Storing one attribute keeps the link flag and every other accessor as
      they were. */
  lemma GetUnstored(o: Cluster, a: Attr, v: Value, b: Attr)
    requires a != b
    ensures Get(Some(Store(o, a, v)), b) == Get(Some(o), b)
    ensures Link(Some(Store(o, a, v))) == Link(Some(o))
  {
    DistinctBits(a, b);
    var stored := Store(o, a, v);
    assert HasBit(stored, b) == HasBit(o, b);
    assert Field(stored, b) == Field(o, b);
  }

  /** Storing the same attribute twice keeps only the second value. */
  lemma StoreTwice(o: Cluster, a: Attr, x: Value, y: Value)
    ensures Store(Store(o, a, x), a, y) == Store(o, a, y)
  {
    assert o.bitmap + {Index(a)} + {Index(a)} == o.bitmap + {Index(a)};
  }

  // ---------------------------------------------------------------------
  // ClusterList

  const ClusterListKind: string := "ClusterList"
  const ClusterListLinkKind: string := "ClusterListLink"
  const ClusterListNilKind: string := "ClusterListNil"

  /** A list of (possibly nil) cluster pointers, with its link and href. */
  datatype ClusterList = ClusterList(href: string, link: bool, items: seq<Option<Cluster>>)

  function ListKind(l: Option<ClusterList>): (k: string)
    ensures k == ClusterListNilKind <==> l.None?
    ensures k == ClusterListLinkKind <==> ListLink(l)
    ensures k == ClusterListKind <==> l.Some? && !ListLink(l)
  {
    if l.None? then ClusterListNilKind
    else if l.value.link then ClusterListLinkKind
    else ClusterListKind
  }

  predicate ListLink(l: Option<ClusterList>)
  {
    l.Some? && l.value.link
  }

  /** `HREF` and `GetHREF`: the flag says whether the href is non-empty. */
  function ListHREF(l: Option<ClusterList>): (r: (string, bool))
    ensures r.1 <==> l.Some? && l.value.href != ""
    ensures r.0 == if l.Some? then l.value.href else ""
  {
    if l.Some? then (l.value.href, l.value.href != "") else ("", false)
  }

  /** `Len`: zero for a nil list. */
  function Len(l: Option<ClusterList>): (n: nat)
    ensures l.None? ==> n == 0
    ensures l.Some? ==> n == |l.value.items|
  {
    if l.None? then 0 else |l.value.items|
  }

  /** `Empty`: the list is nil or has no items. */
  predicate ListEmpty(l: Option<ClusterList>)
  {
    l.None? || |l.value.items| == 0
  }

  lemma ListEmptyIffNoLength(l: Option<ClusterList>)
    ensures ListEmpty(l) <==> Len(l) == 0
  {
  }

  /** `Get`: nil outside `[0, Len)`, and the item at `i` inside. */
  function ListGet(l: Option<ClusterList>, i: int): (c: Option<Cluster>)
    ensures !(0 <= i < Len(l)) ==> c.None?
    ensures 0 <= i < Len(l) ==> c == l.value.items[i]
  {
    if l.None? || i < 0 || i >= |l.value.items| then None else l.value.items[i]
  }

  /** `Slice`: a copy of the items, empty for a nil list. Sequences are
      values, so changing the copy cannot change the list. */
  method Slice(l: Option<ClusterList>) returns (copy: seq<Option<Cluster>>)
    ensures |copy| == Len(l)
    ensures forall i :: 0 <= i < |copy| ==> copy[i] == ListGet(l, i)
  {
    copy := [];
    if l.None? {
      return;
    }
    var items := l.value.items;
    var i := 0;
    while i < |items|
      invariant 0 <= i <= |items|
      invariant |copy| == i
      invariant forall j :: 0 <= j < i ==> copy[j] == items[j]
    {
      copy := copy + [items[i]];
      i := i + 1;
    }
  }

  /** The items an early-exit iteration hands to its callback: all of them
      when every call returns true, otherwise those up to and including the
      first one whose call returns false. */
  predicate StopsAtFirstFalse<T(==)>(items: seq<T>, visited: seq<T>, keepGoing: (nat, T) -> bool)
  {
    && |visited| <= |items|
    && visited == items[..|visited|]
    && (forall i :: 0 <= i < |visited| - 1 ==> keepGoing(i, items[i]))
    && (|visited| == |items| || (|visited| > 0 && !keepGoing(|visited| - 1, items[|visited| - 1])))
  }

  /** There is only one such visit sequence. */
  lemma StopsAtFirstFalseUnique<T>(items: seq<T>, v1: seq<T>, v2: seq<T>, keepGoing: (nat, T) -> bool)
    requires StopsAtFirstFalse(items, v1, keepGoing) && StopsAtFirstFalse(items, v2, keepGoing)
    ensures v1 == v2
  {
  }

  /** `Range`: call `f` on each index and item in order, stopping right after
      the first call that returns false. Returns the items `f` was called on. */
  method Range(l: Option<ClusterList>, f: (nat, Option<Cluster>) -> bool) returns (visited: seq<Option<Cluster>>)
    ensures l.None? ==> visited == []
    ensures l.Some? ==> StopsAtFirstFalse(l.value.items, visited, f)
  {
    visited := [];
    if l.None? {
      return;
    }
    var items := l.value.items;
    var i := 0;
    while i < |items|
      invariant 0 <= i <= |items|
      invariant visited == items[..i]
      invariant forall j :: 0 <= j < i ==> f(j, items[j])
    {
      visited := visited + [items[i]];
      if !f(i, items[i]) {
        return;
      }
      i := i + 1;
    }
  }

  /** `Each`: the same iteration with a callback that does not see the index. */
  method Each(l: Option<ClusterList>, f: Option<Cluster> -> bool) returns (visited: seq<Option<Cluster>>)
    ensures l.None? ==> visited == []
    ensures l.Some? ==> StopsAtFirstFalse(l.value.items, visited, (_, c) => f(c))
  {
    visited := Range(l, (_, c) => f(c));
  }
}
