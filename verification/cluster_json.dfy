/** The JSON form of a cluster. JSON is modelled as the sequence of tokens a
    jsoniter stream writes and a jsoniter iterator reads: `{`, `}`, `[`, `]`,
    the `,` separator, an object member name (a string with its colon), and
    scalar values. The output of the nested writers of referenced types and
    lists, and of the RFC 3339 time formatter, is one opaque `Nested` token
    carrying the value it stands for. */
module ClusterJson {
  import opened Results
  import Text
  import opened ClusterType

  datatype Token =
    | ObjectStart
    | ObjectEnd
    | ArrayStart
    | ArrayEnd
    | Comma
    | Member(name: string)
    | Str(text: string)
    | Bool(flag: bool)
    | Num(number: int)
    | Null
    | Nested(value: Value)

  /** The member name of each attribute. */
  function JsonName(a: Attr): (n: string)
    ensures n != "" && n != "kind"
  {
    match a
    case Id => "id"
    case Href => "href"
    case Api => "api"
    case Aws => "aws"
    case AwsInfrastructureAccessRoleGrants => "aws_infrastructure_access_role_grants"
    case Ccs => "ccs"
    case Dns => "dns"
    case Gcp => "gcp"
    case Addons => "addons"
    case BillingModel => "billing_model"
    case CloudProvider => "cloud_provider"
    case Console => "console"
    case CreationTimestamp => "creation_timestamp"
    case DisplayName => "display_name"
    case EtcdEncryption => "etcd_encryption"
    case ExpirationTimestamp => "expiration_timestamp"
    case ExternalID => "external_id"
    case ExternalConfiguration => "external_configuration"
    case Flavour => "flavour"
    case Groups => "groups"
    case HealthState => "health_state"
    case IdentityProviders => "identity_providers"
    case Ingresses => "ingresses"
    case LoadBalancerQuota => "load_balancer_quota"
    case MachinePools => "machine_pools"
    case Managed => "managed"
    case Metrics => "metrics"
    case MultiAZ => "multi_az"
    case Name => "name"
    case Network => "network"
    case NodeDrainGracePeriod => "node_drain_grace_period"
    case Nodes => "nodes"
    case OpenshiftVersion => "openshift_version"
    case Product => "product"
    case Properties => "properties"
    case ProvisionShard => "provision_shard"
    case Region => "region"
    case State => "state"
    case Status => "status"
    case StorageQuota => "storage_quota"
    case Subscription => "subscription"
    case Version => "version"
  }

  /** The reader's `switch`: the attribute a member name selects, if any.
      The names are grouped by length before they are compared. */
  function AttrNamed(n: string): Option<Attr>
  {
    match |n|
    case 2 => if n == "id" then Some(Id) else None
    case 3 =>
      (match n
       case "api" => Some(Api)
       case "aws" => Some(Aws)
       case "ccs" => Some(Ccs)
       case "dns" => Some(Dns)
       case "gcp" => Some(Gcp)
       case _ => None)
    case 4 =>
      (match n
       case "href" => Some(Href)
       case "name" => Some(Name)
       case _ => None)
    case 5 =>
      (match n
       case "nodes" => Some(Nodes)
       case "state" => Some(State)
       case _ => None)
    case 6 =>
      (match n
       case "addons" => Some(Addons)
       case "groups" => Some(Groups)
       case "region" => Some(Region)
       case "status" => Some(Status)
       case _ => None)
    case 7 =>
      (match n
       case "console" => Some(Console)
       case "flavour" => Some(Flavour)
       case "managed" => Some(Managed)
       case "metrics" => Some(Metrics)
       case "network" => Some(Network)
       case "product" => Some(Product)
       case "version" => Some(Version)
       case _ => None)
    case 8 => if n == "multi_az" then Some(MultiAZ) else None
    case 9 => if n == "ingresses" then Some(Ingresses) else None
    case 10 => if n == "properties" then Some(Properties) else None
    case 11 => if n == "external_id" then Some(ExternalID) else None
    case 12 =>
      (match n
       case "display_name" => Some(DisplayName)
       case "health_state" => Some(HealthState)
       case "subscription" => Some(Subscription)
       case _ => None)
    case 13 =>
      (match n
       case "billing_model" => Some(BillingModel)
       case "machine_pools" => Some(MachinePools)
       case "storage_quota" => Some(StorageQuota)
       case _ => None)
    case 14 => if n == "cloud_provider" then Some(CloudProvider) else None
    case 15 =>
      (match n
       case "etcd_encryption" => Some(EtcdEncryption)
       case "provision_shard" => Some(ProvisionShard)
       case _ => None)
    case 17 => if n == "openshift_version" then Some(OpenshiftVersion) else None
    case 18 =>
      (match n
       case "creation_timestamp" => Some(CreationTimestamp)
       case "identity_providers" => Some(IdentityProviders)
       case _ => None)
    case 19 => if n == "load_balancer_quota" then Some(LoadBalancerQuota) else None
    case 20 => if n == "expiration_timestamp" then Some(ExpirationTimestamp) else None
    case 22 => if n == "external_configuration" then Some(ExternalConfiguration) else None
    case 23 => if n == "node_drain_grace_period" then Some(NodeDrainGracePeriod) else None
    case 37 => if n == "aws_infrastructure_access_role_grants" then Some(AwsInfrastructureAccessRoleGrants) else None
    case _ => None
  }

  /** The reader recognises every name the writer uses. */
  lemma AttrNamedJsonName(a: Attr)
    ensures AttrNamed(JsonName(a)) == Some(a)
  {
    if Index(a) <= 21 {
      NamedLowBits(a);
    } else {
      NamedHighBits(a);
    }
  }

  lemma NamedLowBits(a: Attr)
    requires Index(a) <= 21
    ensures AttrNamed(JsonName(a)) == Some(a)
  {
  }

  lemma NamedHighBits(a: Attr)
    requires Index(a) > 21
    ensures AttrNamed(JsonName(a)) == Some(a)
  {
  }

  // ---------------------------------------------------------------------
  // Attribute order

  /** Indices strictly increasing along the sequence. */
  predicate Increasing(attrs: seq<Attr>)
  {
    forall i, j :: 0 <= i < j < |attrs| ==> Index(attrs[i]) < Index(attrs[j])
  }

  /** The attributes whose bit is at least `i`, in bit order. */
  function AttrsFrom(i: nat): (attrs: seq<Attr>)
    decreases 43 - i
  {
    if i > 42 then []
    else match AttrAt(i)
      case Some(a) => [a] + AttrsFrom(i + 1)
      case None => AttrsFrom(i + 1)
  }

  lemma {:induction false} AttrsFromContents(i: nat)
    ensures forall a :: a in AttrsFrom(i) <==> i <= Index(a)
    ensures Increasing(AttrsFrom(i))
    decreases 43 - i
  {
    if i == 0 {
      AttrsFromContents(1);
      assert AttrsFrom(0) == AttrsFrom(1);
    } else if i <= 42 {
      AttrsFromContents(i + 1);
      IndexAttrAt(i);
      var b := AttrAt(i).value;
      assert AttrsFrom(i) == [b] + AttrsFrom(i + 1);
      forall a
        ensures a in AttrsFrom(i) <==> i <= Index(a)
      {
        DistinctBits(a, b);
      }
    }
  }

  /** All attributes, in the order the writer visits them. */
  const AllAttrs: seq<Attr> := AttrsFrom(1)

  lemma AllAttrsInOrder()
    ensures forall a :: a in AllAttrs
    ensures Increasing(AllAttrs)
  {
    AttrsFromContents(1);
  }

  // ---------------------------------------------------------------------
  // Writer

  /** The kind the writer emits. */
  function KindName(o: Cluster): (k: string)
    ensures k == ClusterLinkKind <==> Link(Some(o))
    ensures k == ClusterKind <==> !Link(Some(o))
  {
    if LinkBit in o.bitmap then ClusterLinkKind else ClusterKind
  }

  /** Not a nil pointer, nil list or nil map. */
  predicate NonNil(v: Value)
  {
    match v
    case MapValue(entries) => entries.Some?
    case RefValue(ref) => ref.Some?
    case _ => true
  }

  /** The writer's condition for emitting an attribute: its bit is set and,
      for a reference, list or map, the field is not nil. */
  predicate Written(o: Cluster, a: Attr)
  {
    HasBit(o, a) && NonNil(Field(o, a))
  }

  /** The attributes of `attrs` the writer emits, in the same order. */
  function Emitted(o: Cluster, attrs: seq<Attr>): (ms: seq<Attr>)
    ensures forall a :: a in ms <==> a in attrs && Written(o, a)
    ensures Increasing(attrs) ==> Increasing(ms)
  {
    if attrs == [] then []
    else
      var rest := Emitted(o, attrs[1..]);
      assert Increasing(attrs) ==> forall a :: a in rest ==> Index(attrs[0]) < Index(a) by {
        if Increasing(attrs) {
          forall a | a in rest
            ensures Index(attrs[0]) < Index(a)
          {
            var j :| 0 <= j < |attrs[1..]| && attrs[1..][j] == a;
            assert attrs[j + 1] == a;
          }
        }
      }
      if Written(o, attrs[0]) then [attrs[0]] + rest else rest
  }

  /** The members of a written cluster after `kind`: exactly the attributes
      the writer's condition holds for, in bit order. */
  function Members(o: Cluster): (ms: seq<Attr>)
    ensures forall a :: a in ms <==> Written(o, a)
    ensures Increasing(ms)
  {
    AllAttrsInOrder();
    Emitted(o, AllAttrs)
  }

  /** A `properties` map: one member per key in ascending key order, the first
      opening the object and each later one preceded by a separator. */
  function PropertyTokens(m: map<string, string>): seq<Token>
  {
    var keys := Text.SortedKeys(m.Keys);
    if keys == [] then [ObjectStart, ObjectEnd] else Entries(keys, m, ObjectStart) + [ObjectEnd]
  }

  function Entries(keys: seq<string>, m: map<string, string>, opening: Token): seq<Token>
    requires forall k :: k in keys ==> k in m
  {
    if keys == [] then []
    else [opening, Member(keys[0]), Str(m[keys[0]])] + Entries(keys[1..], m, Comma)
  }

  /** The tokens of a field's value. A nil map is written as `null`, although
      the writer never reaches that case. */
  function ValueTokens(v: Value): seq<Token>
  {
    match v
    case TextValue(s) => [Str(s)]
    case FlagValue(b) => [Bool(b)]
    case IntegerValue(n) => [Num(n)]
    case TimeValue(_) => [Nested(v)]
    case MapValue(Some(m)) => PropertyTokens(m)
    case MapValue(None) => [Null]
    case RefValue(_) => [Nested(v)]
  }

  /** One member: the `kind` member is always written first, so the writer's
      counter is positive and every attribute member has one separator. */
  function MemberTokens(o: Cluster, a: Attr): seq<Token>
  {
    [Comma, Member(JsonName(a))] + ValueTokens(Field(o, a))
  }

  function Emit(o: Cluster, ms: seq<Attr>): seq<Token>
  {
    if ms == [] then [] else MemberTokens(o, ms[0]) + Emit(o, ms[1..])
  }

  /** `writeCluster`. */
  function Write(o: Cluster): (toks: seq<Token>)
    ensures |toks| >= 4 && toks[..2] == [ObjectStart, Member("kind")] && toks[|toks| - 1] == ObjectEnd
    ensures toks[2] == Str(ClusterLinkKind) <==> Link(Some(o))
    ensures toks[2] == Str(ClusterKind) <==> !Link(Some(o))
  {
    [ObjectStart, Member("kind"), Str(KindName(o))] + Emit(o, Members(o)) + [ObjectEnd]
  }

  // ---------------------------------------------------------------------
  // Reader

  /** How a member name is told apart from the end of an object. jsoniter's
      `ReadObject` returns the empty string for both, and the generated loops
      stop on the empty string: `AsWritten`. `Distinguishing` reports the end
      separately, so an empty member name is read like any other. */
  datatype KeyMode = AsWritten | Distinguishing

  datatype ReadError = Truncated | Unexpected(found: Token) | OutOfRange(number: int) | CannotOpen

  /** One step of object iteration. */
  datatype Step = Entry(name: string, rest: seq<Token>) | End(rest: seq<Token>)

  function Entered(name: string, rest: seq<Token>, mode: KeyMode): (s: Step)
    ensures s.End? <==> mode == AsWritten && name == ""
  {
    if mode == AsWritten && name == "" then End(rest) else Entry(name, rest)
  }

  /** `ReadObject`: `null`, `{}` and `}` end the object; `{` or `,` followed
      by a member name yield the name; anything else is an error. */
  function ReadObject(toks: seq<Token>, mode: KeyMode): (r: Result<Step, ReadError>)
    ensures r.Success? ==> |r.value.rest| < |toks|
    ensures |toks| >= 2 && (toks[0] == ObjectStart || toks[0] == Comma) && toks[1].Member? ==>
              r == Success(Entered(toks[1].name, toks[2..], mode))
    ensures |toks| > 0 && (toks[0] == ObjectEnd || toks[0] == Null) ==> r == Success(End(toks[1..]))
  {
    if |toks| == 0 then Failure(Truncated)
    else match toks[0]
      case Null => Success(End(toks[1..]))
      case ObjectEnd => Success(End(toks[1..]))
      case ObjectStart =>
        if |toks| < 2 then Failure(Truncated)
        else if toks[1].Member? then Success(Entered(toks[1].name, toks[2..], mode))
        else if toks[1] == ObjectEnd then Success(End(toks[2..]))
        else Failure(Unexpected(toks[1]))
      case Comma =>
        if |toks| < 2 then Failure(Truncated)
        else if toks[1].Member? then Success(Entered(toks[1].name, toks[2..], mode))
        else Failure(Unexpected(toks[1]))
      case _ => Failure(Unexpected(toks[0]))
  }

  /** `ReadString`: a string, or `null` read as the empty string. */
  function ReadString(toks: seq<Token>): (r: Result<(string, seq<Token>), ReadError>)
    ensures r.Success? <==> |toks| > 0 && (toks[0].Str? || toks[0] == Null)
    ensures r.Success? ==> r.value.1 == toks[1..]
    ensures r.Success? && toks[0].Str? ==> r.value.0 == toks[0].text
    ensures r.Success? && toks[0] == Null ==> r.value.0 == ""
  {
    if |toks| == 0 then Failure(Truncated)
    else match toks[0]
      case Str(s) => Success((s, toks[1..]))
      case Null => Success(("", toks[1..]))
      case _ => Failure(Unexpected(toks[0]))
  }

  /** `ReadBool`: only `true` or `false`. */
  function ReadBool(toks: seq<Token>): (r: Result<(bool, seq<Token>), ReadError>)
    ensures r.Success? <==> |toks| > 0 && toks[0].Bool?
    ensures r.Success? ==> r.value == (toks[0].flag, toks[1..])
  {
    if |toks| == 0 then Failure(Truncated)
    else match toks[0]
      case Bool(b) => Success((b, toks[1..]))
      case _ => Failure(Unexpected(toks[0]))
  }

  /** `ReadInt`: a number that fits Go's 64-bit `int`. */
  function ReadInt(toks: seq<Token>): (r: Result<(int, seq<Token>), ReadError>)
    ensures r.Success? <==> |toks| > 0 && toks[0].Num? && IsInt64(toks[0].number)
    ensures r.Success? ==> r.value == (toks[0].number, toks[1..])
  {
    if |toks| == 0 then Failure(Truncated)
    else match toks[0]
      case Num(n) => if IsInt64(n) then Success((n, toks[1..])) else Failure(OutOfRange(n))
      case _ => Failure(Unexpected(toks[0]))
  }

  /** The nested reader of a reference, list or timestamp attribute: a
      `Nested` token holding a non-nil value of the attribute's type. */
  function ReadNested(a: Attr, toks: seq<Token>): (r: Result<(Value, seq<Token>), ReadError>)
    ensures r.Success? ==> Fits(a, r.value.0) && NonNil(r.value.0) && |toks| > 0 && r.value.1 == toks[1..]
  {
    if |toks| == 0 then Failure(Truncated)
    else match toks[0]
      case Nested(v) => if Fits(a, v) && NonNil(v) then Success((v, toks[1..])) else Failure(Unexpected(toks[0]))
      case _ => Failure(Unexpected(toks[0]))
  }

  /** A token that is a whole value on its own. */
  predicate IsScalar(t: Token)
  {
    t.Str? || t.Bool? || t.Num? || t.Null? || t.Nested?
  }

  /** A token that opens or closes an object or array. */
  predicate IsBracket(t: Token)
  {
    t.ObjectStart? || t.ObjectEnd? || t.ArrayStart? || t.ArrayEnd?
  }

  /** `ReadAny` on an unknown member: one scalar, or a whole object or array. */
  function Skip(toks: seq<Token>): (r: Result<seq<Token>, ReadError>)
    ensures r.Success? ==> |r.value| < |toks| && r.value == toks[|toks| - |r.value|..]
    // A scalar or an already-read nested value is one token.
    ensures |toks| > 0 && IsScalar(toks[0]) ==> r == Success(toks[1..])
    // A separator or a closing token cannot start a value.
    ensures |toks| > 0 && (toks[0].Comma? || toks[0].Member? || toks[0].ObjectEnd? || toks[0].ArrayEnd?) ==>
              r == Failure(Unexpected(toks[0]))
  {
    if |toks| == 0 then Failure(Truncated)
    else match toks[0]
      case Str(_) => Success(toks[1..])
      case Bool(_) => Success(toks[1..])
      case Num(_) => Success(toks[1..])
      case Null => Success(toks[1..])
      case Nested(_) => Success(toks[1..])
      case ObjectStart => SkipInside(toks[1..], 1, ObjectStart, ObjectEnd)
      case ArrayStart => SkipInside(toks[1..], 1, ArrayStart, ArrayEnd)
      case _ => Failure(Unexpected(toks[0]))
  }

  /** Skips to the closing token that brings the nesting depth to zero. */
  function SkipInside(toks: seq<Token>, depth: nat, open: Token, close: Token): (r: Result<seq<Token>, ReadError>)
    requires depth > 0
    ensures r.Success? ==> |r.value| < |toks| && r.value == toks[|toks| - |r.value|..]
    ensures r.Success? ==> |toks| - |r.value| >= 1 && toks[|toks| - |r.value| - 1] == close
  {
    if |toks| == 0 then Failure(Truncated)
    else if toks[0] == open then SkipInside(toks[1..], depth + 1, open, close)
    else if toks[0] != close then SkipInside(toks[1..], depth, open, close)
    else if depth == 1 then Success(toks[1..])
    else SkipInside(toks[1..], depth - 1, open, close)
  }

  /** Inside an object or array whose body opens and closes nothing of its
      own kind, skipping stops right after the matching closing token. */
  lemma {:induction false} SkipInsideFlat(inner: seq<Token>, rest: seq<Token>, open: Token, close: Token)
    requires open != close
    requires forall i :: 0 <= i < |inner| ==> inner[i] != open && inner[i] != close
    ensures SkipInside(inner + [close] + rest, 1, open, close) == Success(rest)
    decreases |inner|
  {
    if |inner| == 0 {
      assert inner + [close] + rest == [close] + rest;
    } else {
      assert (inner + [close] + rest)[1..] == inner[1..] + [close] + rest;
      SkipInsideFlat(inner[1..], rest, open, close);
    }
  }

  /** An unknown member whose value is an object or array without nested
      objects or arrays is skipped as a whole, and reading resumes right after
      it. */
  lemma SkipFlatValue(inner: seq<Token>, rest: seq<Token>)
    requires forall i :: 0 <= i < |inner| ==> !IsBracket(inner[i])
    ensures Skip([ObjectStart] + inner + [ObjectEnd] + rest) == Success(rest)
    ensures Skip([ArrayStart] + inner + [ArrayEnd] + rest) == Success(rest)
  {
    SkipFlatAs(inner, rest, ObjectStart, ObjectEnd);
    SkipFlatAs(inner, rest, ArrayStart, ArrayEnd);
  }

  lemma SkipFlatAs(inner: seq<Token>, rest: seq<Token>, open: Token, close: Token)
    requires (open, close) == (ObjectStart, ObjectEnd) || (open, close) == (ArrayStart, ArrayEnd)
    requires forall i :: 0 <= i < |inner| ==> inner[i] != open && inner[i] != close
    ensures Skip([open] + inner + [close] + rest) == Success(rest)
  {
    var toks := [open] + inner + [close] + rest;
    var tail := inner + [close] + rest;
    assert toks == [open] + tail;
    assert toks[1..] == tail;
    SkipInsideFlat(inner, rest, open, close);
  }

  /** The `properties` loop: each member's string is stored under its name,
      until the loop sees the end of the object. */
  function ReadProperties(toks: seq<Token>, acc: map<string, string>, mode: KeyMode): (r: Result<(map<string, string>, seq<Token>), ReadError>)
    ensures r.Success? ==> |r.value.1| < |toks| && acc.Keys <= r.value.0.Keys
    decreases |toks|
  {
    match ReadObject(toks, mode)
    case Failure(e) => Failure(e)
    case Success(End(rest)) => Success((acc, rest))
    case Success(Entry(k, rest)) =>
      match ReadString(rest)
      case Failure(e) => Failure(e)
      case Success((v, after)) => ReadProperties(after, acc[k := v], mode)
  }

  /** The value of one recognised member. String enumerations are read as
      their text, with no check against the enumeration's values. */
  function ReadValue(a: Attr, toks: seq<Token>, mode: KeyMode): (r: Result<(Value, seq<Token>), ReadError>)
    ensures r.Success? ==> Fits(a, r.value.0) && NonNil(r.value.0) && |r.value.1| < |toks|
  {
    match KindOfAttr(a)
    case TextKind =>
      (match ReadString(toks)
       case Failure(e) => Failure(e)
       case Success((s, rest)) => Success((TextValue(s), rest)))
    case FlagKind =>
      (match ReadBool(toks)
       case Failure(e) => Failure(e)
       case Success((b, rest)) => Success((FlagValue(b), rest)))
    case IntegerKind =>
      (match ReadInt(toks)
       case Failure(e) => Failure(e)
       case Success((n, rest)) => Success((IntegerValue(n), rest)))
    case StringMapKind =>
      (match ReadProperties(toks, map[], mode)
       case Failure(e) => Failure(e)
       case Success((m, rest)) => Success((MapValue(Some(m)), rest)))
    case _ => ReadNested(a, toks)
  }

  /** The loop of `readCluster`: `kind` sets the link bit only for the link
      kind, a recognised name stores its value and its bit, and any other name
      has its value skipped. Bits are only ever added, and the fields stay
      well typed. */
  function ReadFields(toks: seq<Token>, acc: Cluster, mode: KeyMode): (r: Result<(Cluster, seq<Token>), ReadError>)
    ensures r.Success? ==> acc.bitmap <= r.value.0.bitmap
    ensures r.Success? && WellTyped(acc) ==> WellTyped(r.value.0)
    ensures r.Success? && UsesAttributeBits(acc) ==> UsesAttributeBits(r.value.0)
    decreases |toks|
  {
    match ReadObject(toks, mode)
    case Failure(e) => Failure(e)
    case Success(End(rest)) => Success((acc, rest))
    case Success(Entry(name, rest)) =>
      if name == "kind" then
        match ReadString(rest)
        case Failure(e) => Failure(e)
        case Success((s, after)) =>
          ReadFields(after, if s == ClusterLinkKind then acc.(bitmap := acc.bitmap + {LinkBit}) else acc, mode)
      else match AttrNamed(name)
        case Some(a) =>
          (match ReadValue(a, rest, mode)
           case Failure(e) => Failure(e)
           case Success((v, after)) => ReadFields(after, Store(acc, a, v), mode))
        case None =>
          (match Skip(rest)
           case Failure(e) => Failure(e)
           case Success(after) => ReadFields(after, acc, mode))
  }

  /** `readCluster`: the fields read into an empty object. */
  function Read(toks: seq<Token>, mode: KeyMode): (r: Result<(Cluster, seq<Token>), ReadError>)
    ensures r.Success? ==> WellTyped(r.value.0) && UsesAttributeBits(r.value.0)
  {
    ReadFields(toks, Blank, mode)
  }

  /** The sources `UnmarshalCluster` distinguishes: `http.NoBody`, a source
      the iterator cannot be created from, and a document. */
  datatype Source = NoBody | Unopenable | Document(tokens: seq<Token>)

  function Decode(src: Source, mode: KeyMode): (r: Result<Option<Cluster>, ReadError>)
    ensures src.NoBody? ==> r == Success(None)
    ensures src.Unopenable? ==> r == Failure(CannotOpen)
    ensures src.Document? ==> (r.Success? <==> Read(src.tokens, mode).Success?)
    ensures src.Document? && r.Success? ==> r.value == Some(Read(src.tokens, mode).value.0)
  {
    match src
    case NoBody => Success(None)
    case Unopenable => Failure(CannotOpen)
    case Document(toks) =>
      match Read(toks, mode)
      case Failure(e) => Failure(e)
      case Success((o, _)) => Success(Some(o))
  }

  /** `UnmarshalCluster` as the generated code reads. */
  function UnmarshalAsWritten(src: Source): (r: Result<Option<Cluster>, ReadError>)
    ensures src.NoBody? ==> r == Success(None)
  {
    Decode(src, AsWritten)
  }

  /** `UnmarshalCluster` with the end of an object told apart from an empty
      member name. */
  function Unmarshal(src: Source): (r: Result<Option<Cluster>, ReadError>)
    ensures src.NoBody? ==> r == Success(None)
  {
    Decode(src, Distinguishing)
  }
}
