/**
 * NotifMapping: an immutable link between a notification group and a
 * notification config, every field a nullable `Integer`, with null-safe
 * `equals`, the matching `hashCode`, and a `toString` in the usual
 * `Name{field=value, ...}` form.
 */
module Notif {
  import opened Base
  import opened Strings

  /** The fields in constructor order; the getters are the destructors. */
  datatype NotifMapping = NotifMapping(notifGroupId: Option<int32>, notifConfigId: Option<int32>, id: Option<int32>)

  /** The argument of `equals(Object o)`: null, another NotifMapping, or an object of some other class. */
  datatype Obj = NullRef | AMapping(m: NotifMapping) | OtherObject

  /** `a != null ? a.equals(b) : b == null` for two `Integer`s. */
  function FieldEquals(a: Option<int32>, b: Option<int32>): (r: bool)
    ensures r <==> a == b
  {
    if a.Some? then b.Some? && a.value == b.value else b.None?
  }

  /** `equals`: the same class and, field by field (id, config, group), null-safe equality. */
  function Equals(self: NotifMapping, o: Obj): (r: bool)
    ensures r <==> o == AMapping(self)
  {
    if o.NullRef? || o.OtherObject? then false
    else
      var that := o.m;
      if !FieldEquals(self.id, that.id) then false
      else if !FieldEquals(self.notifConfigId, that.notifConfigId) then false
      else if !FieldEquals(self.notifGroupId, that.notifGroupId) then false
      else true
  }

  /** `equals` is reflexive and symmetric, and false for null and for other classes. */
  lemma EqualsLaws(a: NotifMapping, b: NotifMapping)
    ensures Equals(a, AMapping(a))
    ensures Equals(a, AMapping(b)) == Equals(b, AMapping(a))
    ensures !Equals(a, NullRef) && !Equals(a, OtherObject)
    ensures Equals(a, AMapping(b)) <==>
      a.id == b.id && a.notifConfigId == b.notifConfigId && a.notifGroupId == b.notifGroupId
  {
  }

  /** `Integer.hashCode()` is the value itself; a null field counts as 0. */
  function FieldHash(x: Option<int32>): int32
  {
    if x.Some? then x.value else 0
  }

  /** `hashCode`: `31 * (31 * group + config) + id` in wrapping `int` arithmetic, step by step. */
  function HashCode(m: NotifMapping): int32
  {
    var result := FieldHash(m.notifGroupId);
    var result := Wrap32(31 * result + FieldHash(m.notifConfigId));
    Wrap32(31 * result + FieldHash(m.id))
  }

  /** The stepwise hash is the polynomial `961 * group + 31 * config + id`, narrowed once. */
  lemma HashCodeClosedForm(m: NotifMapping)
    ensures HashCode(m) == Wrap32(961 * FieldHash(m.notifGroupId) + 31 * FieldHash(m.notifConfigId) + FieldHash(m.id))
  {
    var g, c, i: int := FieldHash(m.notifGroupId), FieldHash(m.notifConfigId), FieldHash(m.id);
    var inner := 31 * g + c;
    var w := Wrap32(inner);
    var k := (inner - w) / TWO_32;
    assert inner - w == k * TWO_32;
    Wrap32Congruent(961 * g + 31 * c + i, 31 * w + i, 31 * k);
  }

  /** Mappings that are `equals` have the same hash code. */
  lemma EqualsConsistentWithHashCode(a: NotifMapping, o: Obj)
    requires Equals(a, o)
    ensures o.AMapping? && HashCode(o.m) == HashCode(a)
  {
  }

  /** `StringBuilder.append(Integer)`: the decimal value, or "null". */
  function FieldText(x: Option<int32>): (s: string)
    ensures |s| >= 1 && s[0] != ',' && s[0] != '}'
    ensures forall k :: 0 <= k < |s| ==> s[k] != ',' && s[k] != '}'
  {
    if x.Some? then IntString(x.value) else "null"
  }

  /** `toString`: `NotifMapping{id=<id>, notifGroupId=<group>, notifConfigId=<config>}`. */
  function ToString(m: NotifMapping): (s: string)
    ensures |s| >= 17 && s[..16] == "NotifMapping{id=" && s[|s| - 1] == '}'
  {
    "NotifMapping{id=" + (FieldText(m.id) + (", notifGroupId=" + (FieldText(m.notifGroupId) +
      (", notifConfigId=" + (FieldText(m.notifConfigId) + "}")))))
  }

  /** Two field texts followed by the same kind of separator are split at the same place. */
  lemma SplitAtSeparator(a1: string, r1: string, a2: string, r2: string, c: char)
    requires forall k :: 0 <= k < |a1| ==> a1[k] != c
    requires forall k :: 0 <= k < |a2| ==> a2[k] != c
    requires |r1| >= 1 && |r2| >= 1 && r1[0] == c && r2[0] == c
    requires a1 + r1 == a2 + r2
    ensures a1 == a2 && r1 == r2
  {
    SeparatorAt(a1, r1, c);
    SeparatorAt(a2, r2, c);
    assert |a1| == |a2|;
    assert a1 == (a1 + r1)[..|a1|];
    assert a2 == (a2 + r2)[..|a2|];
    assert r1 == (a1 + r1)[|a1|..];
    assert r2 == (a2 + r2)[|a2|..];
  }

  /** In `a + r`, with no `c` in `a` and `r` starting with `c`, the first `c` is at `|a|`. */
  lemma SeparatorAt(a: string, r: string, c: char)
    requires forall k :: 0 <= k < |a| ==> a[k] != c
    requires |r| >= 1 && r[0] == c
    ensures (a + r)[|a|] == c
    ensures forall k :: 0 <= k < |a| ==> (a + r)[k] != c
  {
  }

  lemma PrefixCancel(p: string, x: string, y: string)
    requires p + x == p + y
    ensures x == y
  {
    assert x == (p + x)[|p|..];
    assert y == (p + y)[|p|..];
  }

  /** "null" and a decimal number never coincide, and decimal numbers are unambiguous. */
  lemma FieldTextInjective(x: Option<int32>, y: Option<int32>)
    requires FieldText(x) == FieldText(y)
    ensures x == y
  {
    if x.Some? && y.Some? {
      IntStringRoundTrip(x.value);
      IntStringRoundTrip(y.value);
    }
  }

  /** The text determines the mapping: distinct mappings print differently. */
  lemma ToStringInjective(a: NotifMapping, b: NotifMapping)
    requires ToString(a) == ToString(b)
    ensures a == b
  {
    var ia, ga, ca := FieldText(a.id), FieldText(a.notifGroupId), FieldText(a.notifConfigId);
    var ib, gb, cb := FieldText(b.id), FieldText(b.notifGroupId), FieldText(b.notifConfigId);
    var ta := ", notifGroupId=" + (ga + (", notifConfigId=" + (ca + "}")));
    var tb := ", notifGroupId=" + (gb + (", notifConfigId=" + (cb + "}")));
    PrefixCancel("NotifMapping{id=", ia + ta, ib + tb);
    SplitAtSeparator(ia, ta, ib, tb, ',');
    PrefixCancel(", notifGroupId=", ga + (", notifConfigId=" + (ca + "}")), gb + (", notifConfigId=" + (cb + "}")));
    SplitAtSeparator(ga, ", notifConfigId=" + (ca + "}"), gb, ", notifConfigId=" + (cb + "}"), ',');
    PrefixCancel(", notifConfigId=", ca + "}", cb + "}");
    SplitAtSeparator(ca, "}", cb, "}", '}');
    FieldTextInjective(a.id, b.id);
    FieldTextInjective(a.notifGroupId, b.notifGroupId);
    FieldTextInjective(a.notifConfigId, b.notifConfigId);
  }
}
