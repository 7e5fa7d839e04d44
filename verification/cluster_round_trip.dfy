/** What the cluster reader makes of the writer's output, and of some inputs
    the writer never produces. */
module ClusterRoundTrip {
  import opened Results
  import Text
  import opened ClusterType
  import opened ClusterJson

  // ---------------------------------------------------------------------
  // properties

  /** `acc` with the entries of `m` under `keys` stored in order. */
  function Overlay(acc: map<string, string>, keys: seq<string>, m: map<string, string>): map<string, string>
    requires forall k :: k in keys ==> k in m
    decreases |keys|
  {
    if keys == [] then acc else Overlay(acc[keys[0] := m[keys[0]]], keys[1..], m)
  }

  lemma {:induction false} OverlayContents(acc: map<string, string>, keys: seq<string>, m: map<string, string>)
    requires forall k :: k in keys ==> k in m
    ensures forall k :: k in Overlay(acc, keys, m) <==> k in acc || k in keys
    ensures forall k :: k in keys ==> Overlay(acc, keys, m)[k] == m[k]
    ensures forall k :: k in acc && k !in keys ==> Overlay(acc, keys, m)[k] == acc[k]
    decreases |keys|
  {
    if keys != [] {
      OverlayContents(acc[keys[0] := m[keys[0]]], keys[1..], m);
      assert forall k :: k in keys <==> k == keys[0] || k in keys[1..];
    }
  }

  /** Reading the entries the writer emits for `keys` stores them in order. */
  lemma {:induction false} ReadEntries(keys: seq<string>, m: map<string, string>, opening: Token,
                                        acc: map<string, string>, rest: seq<Token>, mode: KeyMode)
    requires forall k :: k in keys ==> k in m
    requires opening == ObjectStart || opening == Comma
    requires mode == AsWritten ==> "" !in keys
    ensures ReadProperties(Entries(keys, m, opening) + [ObjectEnd] + rest, acc, mode) == Success((Overlay(acc, keys, m), rest))
    decreases |keys|
  {
    if keys == [] {
      assert Entries(keys, m, opening) + [ObjectEnd] + rest == [ObjectEnd] + rest;
    } else {
      var tail := Entries(keys[1..], m, Comma) + [ObjectEnd] + rest;
      assert Entries(keys, m, opening) + [ObjectEnd] + rest == [opening, Member(keys[0]), Str(m[keys[0]])] + tail;
      ReadEntries(keys[1..], m, Comma, acc[keys[0] := m[keys[0]]], rest, mode);
    }
  }

  /** A `properties` object reads back as the map it was written from. Under
      the generated reader this needs the map to have no empty key. */
  lemma PropertiesRoundTrip(m: map<string, string>, rest: seq<Token>, mode: KeyMode)
    requires mode == AsWritten ==> "" !in m
    ensures ReadProperties(PropertyTokens(m) + rest, map[], mode) == Success((m, rest))
  {
    var keys := Text.SortedKeys(m.Keys);
    if keys == [] {
      assert m.Keys == {};
      assert PropertyTokens(m) + rest == [ObjectStart, ObjectEnd] + rest;
    } else {
      assert PropertyTokens(m) + rest == Entries(keys, m, ObjectStart) + [ObjectEnd] + rest;
      ReadEntries(keys, m, ObjectStart, map[], rest, mode);
      OverlayContents(map[], keys, m);
      assert Overlay(map[], keys, m) == m;
    }
  }

  // ---------------------------------------------------------------------
  // Members

  /** An attribute the reader gets back from the writer's output: a string,
      enumeration, boolean, integer or `properties` attribute holding a value
      of its type, not nil, and (under the generated reader) with no empty
      property key. */
  predicate Recoverable(o: Cluster, a: Attr, mode: KeyMode)
  {
    var v := Field(o, a);
    && KindOfAttr(a) in {TextKind, FlagKind, IntegerKind, StringMapKind}
    && Fits(a, v)
    && NonNil(v)
    && (mode == AsWritten && v.MapValue? ==> "" !in v.entries.value)
  }

  lemma ValueRoundTrip(o: Cluster, a: Attr, rest: seq<Token>, mode: KeyMode)
    requires Recoverable(o, a, mode)
    ensures ReadValue(a, ValueTokens(Field(o, a)) + rest, mode) == Success((Field(o, a), rest))
  {
    var v := Field(o, a);
    match v
    case MapValue(Some(m)) => PropertiesRoundTrip(m, rest, mode);
    case _ =>
  }

  /** `acc` with the fields of `o` under `ms` stored in order. */
  function StoreAll(acc: Cluster, o: Cluster, ms: seq<Attr>): Cluster
    decreases |ms|
  {
    if ms == [] then acc else StoreAll(Store(acc, ms[0], Field(o, ms[0])), o, ms[1..])
  }

  lemma {:induction false} StoreAllContents(acc: Cluster, o: Cluster, ms: seq<Attr>)
    ensures StoreAll(acc, o, ms).bitmap == acc.bitmap + (set a | a in ms :: Index(a))
    ensures forall b :: Field(StoreAll(acc, o, ms), b) == if b in ms then Field(o, b) else Field(acc, b)
    decreases |ms|
  {
    if ms != [] {
      StoreAllContents(Store(acc, ms[0], Field(o, ms[0])), o, ms[1..]);
      assert forall a :: a in ms <==> a == ms[0] || a in ms[1..];
      assert (set a | a in ms :: Index(a)) == {Index(ms[0])} + (set a | a in ms[1..] :: Index(a));
    }
  }

  /** Reading the members the writer emits for `ms` stores their values. */
  lemma {:induction false} ReadMembers(o: Cluster, ms: seq<Attr>, acc: Cluster, more: seq<Token>, mode: KeyMode)
    requires forall a :: a in ms ==> Recoverable(o, a, mode)
    ensures ReadFields(Emit(o, ms) + more, acc, mode) == ReadFields(more, StoreAll(acc, o, ms), mode)
    decreases |ms|
  {
    if ms == [] {
      assert Emit(o, ms) + more == more;
    } else {
      var a := ms[0];
      var after := Emit(o, ms[1..]) + more;
      assert Emit(o, ms) + more == [Comma, Member(JsonName(a))] + (ValueTokens(Field(o, a)) + after);
      AttrNamedJsonName(a);
      ValueRoundTrip(o, a, after, mode);
      ReadMembers(o, ms[1..], Store(acc, a, Field(o, a)), more, mode);
    }
  }

  // ---------------------------------------------------------------------
  // Reading one member

  /** A `kind` member sets the link bit exactly when its value is the link
      kind, and otherwise changes nothing. */
  lemma KindMember(opening: Token, s: string, rest: seq<Token>, acc: Cluster, mode: KeyMode)
    requires opening == ObjectStart || opening == Comma
    ensures ReadFields([opening, Member("kind"), Str(s)] + rest, acc, mode) ==
            ReadFields(rest, if s == ClusterLinkKind then acc.(bitmap := acc.bitmap + {LinkBit}) else acc, mode)
  {
    var toks := [opening, Member("kind"), Str(s)] + rest;
    assert toks[1] == Member("kind") && toks[2..] == [Str(s)] + rest;
    assert ([Str(s)] + rest)[1..] == rest;
  }

  /** A recognised member stores the value read for it, which sets that
      attribute's bit and leaves every other accessor as it was. */
  lemma KnownMember(opening: Token, a: Attr, toks: seq<Token>, acc: Cluster, mode: KeyMode)
    requires opening == ObjectStart || opening == Comma
    requires ReadValue(a, toks, mode).Success?
    ensures ReadFields([opening, Member(JsonName(a))] + toks, acc, mode) ==
            ReadFields(ReadValue(a, toks, mode).value.1, Store(acc, a, ReadValue(a, toks, mode).value.0), mode)
  {
    AttrNamedJsonName(a);
    assert ([opening, Member(JsonName(a))] + toks)[2..] == toks;
  }

  /** A member whose name the reader does not know has its value skipped and
      changes nothing. */
  lemma UnknownMember(opening: Token, name: string, toks: seq<Token>, acc: Cluster, mode: KeyMode)
    requires opening == ObjectStart || opening == Comma
    requires name != "kind" && AttrNamed(name).None?
    requires mode == AsWritten ==> name != ""
    requires Skip(toks).Success?
    ensures ReadFields([opening, Member(name)] + toks, acc, mode) == ReadFields(Skip(toks).value, acc, mode)
  {
    assert ([opening, Member(name)] + toks)[2..] == toks;
  }

  /** When a name is repeated, the last occurrence wins: reading it twice
      leaves the object as reading only the second value would. For
      `properties` this replaces the whole map. */
  lemma RepeatedMember(a: Attr, first: seq<Token>, second: seq<Token>, rest: seq<Token>, acc: Cluster, mode: KeyMode)
    requires ReadValue(a, first + ([Comma, Member(JsonName(a))] + (second + rest)), mode).Success?
    requires ReadValue(a, first + ([Comma, Member(JsonName(a))] + (second + rest)), mode).value.1 ==
             [Comma, Member(JsonName(a))] + (second + rest)
    requires ReadValue(a, second + rest, mode).Success?
    ensures ReadFields([Comma, Member(JsonName(a))] + (first + ([Comma, Member(JsonName(a))] + (second + rest))), acc, mode) ==
            ReadFields([Comma, Member(JsonName(a))] + (second + rest), acc, mode)
  {
    var name := [Comma, Member(JsonName(a))];
    var again := name + (second + rest);
    var v1 := ReadValue(a, first + again, mode).value.0;
    var v2 := ReadValue(a, second + rest, mode).value.0;
    var after := ReadValue(a, second + rest, mode).value.1;
    KnownMember(Comma, a, first + again, acc, mode);
    assert ReadFields(name + (first + again), acc, mode) == ReadFields(again, Store(acc, a, v1), mode);
    KnownMember(Comma, a, second + rest, Store(acc, a, v1), mode);
    assert ReadFields(again, Store(acc, a, v1), mode) == ReadFields(after, Store(Store(acc, a, v1), a, v2), mode);
    StoreTwice(acc, a, v1, v2);
    KnownMember(Comma, a, second + rest, acc, mode);
  }

  /** Two `properties` objects in a row: the object keeps exactly the second
      map, whatever the first one held. The generated reader needs both maps
      free of the empty key, which it cannot read back. */
  lemma RepeatedProperties(m1: map<string, string>, m2: map<string, string>, rest: seq<Token>, acc: Cluster, mode: KeyMode)
    requires mode == AsWritten ==> "" !in m1 && "" !in m2
    ensures var name := [Comma, Member("properties")];
            ReadFields(name + (PropertyTokens(m1) + (name + (PropertyTokens(m2) + rest))), acc, mode) ==
            ReadFields(rest, Store(acc, Properties, MapValue(Some(m2))), mode)
  {
    var name := [Comma, Member(JsonName(Properties))];
    var again := name + (PropertyTokens(m2) + rest);
    PropertiesRoundTrip(m1, again, mode);
    assert ReadValue(Properties, PropertyTokens(m1) + again, mode) == Success((MapValue(Some(m1)), again));
    PropertiesRoundTrip(m2, rest, mode);
    assert ReadValue(Properties, PropertyTokens(m2) + rest, mode) == Success((MapValue(Some(m2)), rest));
    RepeatedMember(Properties, PropertyTokens(m1), PropertyTokens(m2), rest, acc, mode);
    KnownMember(Comma, Properties, PropertyTokens(m2) + rest, acc, mode);
  }

  // ---------------------------------------------------------------------
  // Round trip

  /** A cluster whose set bits are the link flag and attributes the reader
      gets back. */
  predicate RoundTrippable(o: Cluster, mode: KeyMode)
  {
    && UsesAttributeBits(o)
    && WellTyped(o)
    && forall a :: HasBit(o, a) ==> Recoverable(o, a, mode)
  }

  /** The object after the `kind` member: only the link bit, when set. */
  function Start(o: Cluster): (r: Cluster)
    ensures r.bitmap == o.bitmap * {LinkBit} && r.fields == map[]
  {
    if Link(Some(o)) then Cluster({LinkBit}, map[]) else Blank
  }

  /** The object the reader builds from the writer's output. */
  lemma ReadWritten(o: Cluster, mode: KeyMode)
    requires RoundTrippable(o, mode)
    ensures Read(Write(o), mode) == Success((StoreAll(Start(o), o, Members(o)), []))
  {
    var members := Emit(o, Members(o));
    assert Write(o) == [ObjectStart, Member("kind"), Str(KindName(o))] + (members + [ObjectEnd]);
    KindMember(ObjectStart, KindName(o), members + [ObjectEnd], Blank, mode);
    assert (if KindName(o) == ClusterLinkKind then Blank.(bitmap := Blank.bitmap + {LinkBit}) else Blank) == Start(o);
    ReadMembers(o, Members(o), Start(o), [ObjectEnd], mode);
  }

  /** `UnmarshalCluster` of `writeCluster`'s output gives back a cluster with
      the same bitmap and the same accessors. With the end of an object told
      apart from an empty name this holds for every such cluster; with the
      generated reader only when no property key is empty. */
  lemma RoundTrip(o: Cluster, mode: KeyMode)
    requires RoundTrippable(o, mode)
    ensures Decode(Document(Write(o)), mode).Success?
    ensures var r := Decode(Document(Write(o)), mode).value;
            r.Some? && r.value.bitmap == o.bitmap && forall a :: Get(r, a) == Get(Some(o), a)
  {
    ReadWritten(o, mode);
    var r := StoreAll(Start(o), o, Members(o));
    StoreAllContents(Start(o), o, Members(o));
    forall i | i in o.bitmap
      ensures i in r.bitmap
    {
      if i != LinkBit {
        IndexAttrAt(i);
        var a := AttrAt(i).value;
        assert HasBit(o, a) && Recoverable(o, a, mode);
        assert Written(o, a);
      }
    }
    forall a
      ensures Get(Some(r), a) == Get(Some(o), a)
    {
      if HasBit(o, a) {
        assert a in Members(o);
      }
    }
  }

  lemma RoundTripCorrected(o: Cluster)
    requires RoundTrippable(o, Distinguishing)
    ensures Unmarshal(Document(Write(o))).Success?
    ensures var r := Unmarshal(Document(Write(o))).value;
            r.Some? && r.value.bitmap == o.bitmap && forall a :: Get(r, a) == Get(Some(o), a)
  {
    RoundTrip(o, Distinguishing);
  }

  /** Two clusters the writer's condition agrees on emit the same
      attributes. */
  lemma {:induction false} EmittedAgree(o: Cluster, p: Cluster, attrs: seq<Attr>)
    requires forall a :: Written(o, a) == Written(p, a)
    ensures Emitted(o, attrs) == Emitted(p, attrs)
    decreases |attrs|
  {
    if attrs != [] {
      EmittedAgree(o, p, attrs[1..]);
    }
  }

  /** Two clusters with the same fields write the same members. */
  lemma {:induction false} EmitAgree(o: Cluster, p: Cluster, ms: seq<Attr>)
    requires o.fields == p.fields
    ensures Emit(o, ms) == Emit(p, ms)
    decreases |ms|
  {
    if ms != [] {
      EmitAgree(o, p, ms[1..]);
      assert MemberTokens(o, ms[0]) == MemberTokens(p, ms[0]);
    }
  }

  /** Clearing the bit of a nil field does not change what is written. */
  lemma NilFieldUnwritten(o: Cluster, a: Attr)
    requires !NonNil(Field(o, a))
    ensures Write(o) == Write(Cluster(o.bitmap - {Index(a)}, o.fields))
  {
    var p := Cluster(o.bitmap - {Index(a)}, o.fields);
    forall b
      ensures Written(o, b) == Written(p, b)
    {
      DistinctBits(a, b);
    }
    DistinctBits(a, a);
    EmittedAgree(o, p, AllAttrs);
    assert Members(o) == Members(p);
    EmitAgree(o, p, Members(o));
    assert KindName(o) == KindName(p);
  }

  /** A set bit over a nil map (or nil reference) is not written, so it does
      not survive the round trip: the cluster read back has every other bit
      and accessor of the original, and reports that attribute as unset. */
  lemma NilFieldDropped(o: Cluster, a: Attr, mode: KeyMode)
    requires UsesAttributeBits(o) && WellTyped(o)
    requires HasBit(o, a) && !NonNil(Field(o, a))
    requires forall b :: HasBit(o, b) && b != a ==> Recoverable(o, b, mode)
    ensures Decode(Document(Write(o)), mode).Success?
    ensures var r := Decode(Document(Write(o)), mode).value;
            && r.Some? && r.value.bitmap == o.bitmap - {Index(a)}
            && !Get(r, a).1
            && forall b :: b != a ==> Get(r, b) == Get(Some(o), b)
  {
    var p := Cluster(o.bitmap - {Index(a)}, o.fields);
    NilFieldUnwritten(o, a);
    ClearedRoundTrippable(o, a, mode);
    RoundTrip(p, mode);
    assert Decode(Document(Write(o)), mode) == Decode(Document(Write(p)), mode);
    ClearedBit(o, a);
  }

  /** Clearing the one bit that is not recoverable leaves a cluster the
      round trip holds for. */
  lemma ClearedRoundTrippable(o: Cluster, a: Attr, mode: KeyMode)
    requires UsesAttributeBits(o) && WellTyped(o)
    requires forall b :: HasBit(o, b) && b != a ==> Recoverable(o, b, mode)
    ensures RoundTrippable(Cluster(o.bitmap - {Index(a)}, o.fields), mode)
  {
    var p := Cluster(o.bitmap - {Index(a)}, o.fields);
    forall b | HasBit(p, b)
      ensures Recoverable(p, b, mode)
    {
      assert b != a && HasBit(o, b);
    }
  }

  /** The accessors of a cluster with one bit cleared. */
  lemma ClearedBit(o: Cluster, a: Attr)
    ensures !Get(Some(Cluster(o.bitmap - {Index(a)}, o.fields)), a).1
    ensures forall b :: b != a ==> Get(Some(Cluster(o.bitmap - {Index(a)}, o.fields)), b) == Get(Some(o), b)
  {
    forall b | b != a
      ensures Get(Some(Cluster(o.bitmap - {Index(a)}, o.fields)), b) == Get(Some(o), b)
    {
      DistinctBits(a, b);
    }
  }

  // ---------------------------------------------------------------------
  // Empty member names

  /** The generated loop stops at a member with an empty name as if the
      object had ended, leaving the rest of the object unread. */
  lemma EmptyNameEndsObject(opening: Token, rest: seq<Token>, acc: Cluster)
    requires opening == ObjectStart || opening == Comma
    ensures ReadFields([opening, Member("")] + rest, acc, AsWritten) == Success((acc, rest))
  {
  }

  /** Telling the end apart skips an empty-named member like any unknown one. */
  lemma EmptyNameSkipped(opening: Token, rest: seq<Token>, acc: Cluster)
    requires opening == ObjectStart || opening == Comma
    requires Skip(rest).Success?
    ensures ReadFields([opening, Member("")] + rest, acc, Distinguishing) == ReadFields(Skip(rest).value, acc, Distinguishing)
  {
    UnknownMember(opening, "", rest, acc, Distinguishing);
  }

  /** `{"": 1, "id": "x"}`: the generated reader returns an empty cluster and
      no error; the identifier is silently dropped. */
  lemma EmptyNameDropsRest()
    ensures var doc := [ObjectStart, Member(""), Num(1), Comma, Member("id"), Str("x"), ObjectEnd];
            && UnmarshalAsWritten(Document(doc)) == Success(Some(Blank))
            && Unmarshal(Document(doc)).Success?
            && Get(Unmarshal(Document(doc)).value, Id) == (TextValue("x"), true)
  {
    var doc := [ObjectStart, Member(""), Num(1), Comma, Member("id"), Str("x"), ObjectEnd];
    EmptyNameEndsObject(ObjectStart, doc[2..], Blank);
    assert doc == [ObjectStart, Member("")] + doc[2..];
    var tail := [Comma, Member("id"), Str("x"), ObjectEnd];
    assert doc[2..] == [Num(1)] + tail;
    UnknownMember(ObjectStart, "", doc[2..], Blank, Distinguishing);
    assert Skip(doc[2..]) == Success(tail);
    KnownMember(Comma, Id, [Str("x"), ObjectEnd], Blank, Distinguishing);
    assert tail == [Comma, Member(JsonName(Id))] + [Str("x"), ObjectEnd];
    GetStored(Blank, Id, TextValue("x"));
  }

  /** A cluster whose only attribute is a `properties` map with one entry,
      `value`, under the empty key. */
  function EmptyKeyCluster(value: string): Cluster
  {
    Cluster({Index(Properties)}, map[Properties := MapValue(Some(map["" := value]))])
  }

  lemma EmptyKeyClusterBits(value: string, a: Attr)
    ensures HasBit(EmptyKeyCluster(value), a) <==> a == Properties
    ensures a == Properties ==> Field(EmptyKeyCluster(value), a) == MapValue(Some(map["" := value]))
  {
    DistinctBits(a, Properties);
  }

  /** The first two attributes of an increasing sequence differ. */
  lemma FirstTwoDiffer(ms: seq<Attr>)
    requires Increasing(ms) && |ms| >= 2
    ensures ms[0] in ms && ms[1] in ms && ms[0] != ms[1]
  {
  }

  /** An increasing sequence holding only `a`, at least once, is `[a]`. */
  lemma OnlyElement(ms: seq<Attr>, a: Attr)
    requires Increasing(ms) && a in ms
    requires forall b :: b in ms ==> b == a
    ensures ms == [a]
  {
    if |ms| > 1 {
      FirstTwoDiffer(ms);
      assert false;
    }
  }

  lemma EmptyKeyClusterMembers(value: string)
    ensures Members(EmptyKeyCluster(value)) == [Properties]
  {
    var o := EmptyKeyCluster(value);
    var ms := Members(o);
    EmptyKeyClusterBits(value, Properties);
    assert Written(o, Properties);
    forall b | b in ms
      ensures b == Properties
    {
      EmptyKeyClusterBits(value, b);
    }
    OnlyElement(ms, Properties);
  }

  lemma EmptyKeyClusterRoundTrippable(value: string)
    ensures RoundTrippable(EmptyKeyCluster(value), Distinguishing)
  {
    var o := EmptyKeyCluster(value);
    forall a | HasBit(o, a)
      ensures Recoverable(o, a, Distinguishing)
    {
      EmptyKeyClusterBits(value, a);
    }
  }

  /** A one-entry map is written as a one-member object. */
  lemma SingleEntryTokens(k: string, v: string)
    ensures PropertyTokens(map[k := v]) == [ObjectStart, Member(k), Str(v), ObjectEnd]
  {
    var m := map[k := v];
    var keys := Text.SortedKeys(m.Keys);
    assert m.Keys == {k};
    assert k in keys;
    assert keys == [k];
    assert keys[1..] == [];
    assert Entries(keys, m, ObjectStart) == [ObjectStart, Member(k), Str(v)];
  }

  /** The writer's output for the cluster. */
  lemma WriteEmptyKeyCluster(value: string)
    ensures Write(EmptyKeyCluster(value)) ==
            [ObjectStart, Member("kind"), Str(ClusterKind), Comma, Member("properties"),
             ObjectStart, Member(""), Str(value), ObjectEnd, ObjectEnd]
  {
    var o := EmptyKeyCluster(value);
    EmptyKeyClusterMembers(value);
    EmptyKeyClusterBits(value, Properties);
    SingleEntryTokens("", value);
    assert Emit(o, [Properties]) == MemberTokens(o, Properties);
  }

  /** The generated properties loop also stops at an empty key. */
  lemma EmptyKeyEndsProperties(rest: seq<Token>, acc: map<string, string>)
    ensures ReadProperties([ObjectStart, Member("")] + rest, acc, AsWritten) == Success((acc, rest))
  {
    assert ([ObjectStart, Member("")] + rest)[2..] == rest;
  }

  /** A value where a member should start is an error. */
  lemma StrayValue(t: Token, rest: seq<Token>, acc: Cluster, mode: KeyMode)
    requires t.Str?
    ensures ReadFields([t] + rest, acc, mode) == Failure(Unexpected(t))
  {
  }

  /** After the kind, the generated properties loop stops at the empty key,
      and the outer loop then meets the entry's value where a member name
      should be. */
  lemma EmptyKeyMembersAsWritten(value: string, members: seq<Token>)
    requires members == [Comma, Member("properties"), ObjectStart, Member(""), Str(value), ObjectEnd, ObjectEnd]
    ensures ReadFields(members, Blank, AsWritten) == Failure(Unexpected(Str(value)))
  {
    var left := [Str(value), ObjectEnd, ObjectEnd];
    var inner := [ObjectStart, Member("")] + left;
    assert members == [Comma, Member(JsonName(Properties))] + inner;
    EmptyKeyEndsProperties(left, map[]);
    assert ReadValue(Properties, inner, AsWritten) == Success((MapValue(Some(map[])), left));
    KnownMember(Comma, Properties, inner, Blank, AsWritten);
    StrayValue(Str(value), [ObjectEnd, ObjectEnd], Store(Blank, Properties, MapValue(Some(map[]))), AsWritten);
    assert left == [Str(value)] + [ObjectEnd, ObjectEnd];
  }

  /** The generated reader on the written tokens. */
  lemma EmptyKeyTokensAsWritten(value: string, toks: seq<Token>)
    requires toks == [ObjectStart, Member("kind"), Str(ClusterKind), Comma, Member("properties"),
                      ObjectStart, Member(""), Str(value), ObjectEnd, ObjectEnd]
    ensures UnmarshalAsWritten(Document(toks)) == Failure(Unexpected(Str(value)))
  {
    var members := toks[3..];
    assert toks == [ObjectStart, Member("kind"), Str(ClusterKind)] + members;
    KindMember(ObjectStart, ClusterKind, members, Blank, AsWritten);
    EmptyKeyMembersAsWritten(value, members);
  }

  /** The generated reader fails on what the generated writer makes of a
      cluster whose properties hold the empty key. */
  lemma EmptyPropertyKeyAsWritten(value: string)
    ensures UnmarshalAsWritten(Document(Write(EmptyKeyCluster(value)))) == Failure(Unexpected(Str(value)))
  {
    WriteEmptyKeyCluster(value);
    EmptyKeyTokensAsWritten(value, Write(EmptyKeyCluster(value)));
  }

  /** Telling the end apart, the same output reads back as the cluster. */
  lemma EmptyPropertyKeyCorrected(value: string)
    ensures Unmarshal(Document(Write(EmptyKeyCluster(value)))).Success?
    ensures Get(Unmarshal(Document(Write(EmptyKeyCluster(value)))).value, Properties) == (MapValue(Some(map["" := value])), true)
  {
    EmptyKeyClusterRoundTrippable(value);
    RoundTripCorrected(EmptyKeyCluster(value));
    EmptyKeyClusterBits(value, Properties);
  }
}
