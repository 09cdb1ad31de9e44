/** The node's guest networking: the jump rule kept first in a shared iptables chain, and the /30 of
    each tap device. */
module NodeNetwork {
  import opened Options

  type Rule = string

  // ---------- the jump rule ----------

  function Without(rules: seq<Rule>, want: Rule): seq<Rule> {
    if rules == [] then [] else (if rules[0] == want then [] else [rules[0]]) + Without(rules[1..], want)
  }

  /** One step down the list: the copy at `i` is deleted, any other rule stays. */
  lemma DropCopy(listed: seq<Rule>, i: nat, want: Rule)
    requires i < |listed|
    ensures var r := listed[..i + 1] + Without(listed[i + 1..], want);
      listed[..i] + Without(listed[i..], want) == if listed[i] == want then r[..i] + r[i + 1..] else r
  {
    assert listed[i..] == [listed[i]] + listed[i + 1..];
    assert listed[..i + 1] == listed[..i] + [listed[i]];
  }

  /** The other rules are all there, as often as before, and the wanted one is not. */
  lemma {:induction false} WithoutKeepsOthers(rules: seq<Rule>, want: Rule, rule: Rule)
    ensures multiset(Without(rules, want))[rule] == if rule == want then 0 else multiset(rules)[rule]
    decreases |rules|
  {
    if rules != [] {
      WithoutKeepsOthers(rules[1..], want, rule);
      assert rules == [rules[0]] + rules[1..];
    }
  }

  /** And they keep their order: a chain in two parts is stripped part by part. */
  lemma {:induction false} WithoutJoins(front: seq<Rule>, back: seq<Rule>, want: Rule)
    ensures Without(front + back, want) == Without(front, want) + Without(back, want)
    decreases |front|
  {
    if front == [] {
      assert front + back == back;
    } else {
      WithoutJoins(front[1..], back, want);
      assert (front + back)[0] == front[0] && (front + back)[1..] == front[1..] + back;
    }
  }

  predicate FirstSince(past: seq<seq<Rule>>, from: nat, want: Rule) {
    forall k :: from <= k < |past| ==> past[k] != [] && past[k][0] == want
  }

  /** One chain, rules numbered from 1; `past` is every state a command has left it in. */
  class Chain {
    var rules: seq<Rule>
    ghost var past: seq<seq<Rule>>

    constructor (rules: seq<Rule>)
      ensures this.rules == rules && past == []
    {
      this.rules, past := rules, [];
    }

    method InsertFirst(rule: Rule)
      modifies this
      ensures rules == [rule] + old(rules) && past == old(past) + [rules]
    {
      rules := [rule] + rules;
      past := past + [rules];
    }

    method Delete(number: nat)
      requires 1 <= number <= |rules|
      modifies this
      ensures rules == old(rules)[..number - 1] + old(rules)[number..] && past == old(past) + [rules]
    {
      rules := rules[..number - 1] + rules[number..];
      past := past + [rules];
    }

    /** The jump ends up first and only once, the others in their order behind it; from the first
        command on it never leaves the first place, so stopping anywhere leaves it in force.  One
        command for each copy too many, one if the jump is not first, none on a chain in order. */
    method EnsureJumpFirst(want: Rule)
      modifies this
      ensures rules == [want] + Without(old(rules), want)
      ensures old(past) <= past && FirstSince(past, |old(past)|, want)
      ensures |past| == |old(past)| + multiset(old(rules))[want]
                        + (if old(rules) == [] || old(rules)[0] != want then 1 else -1)
    {
      var listed := rules;
      if listed == [] || listed[0] != want {
        InsertFirst(want);
        listed := [want] + listed;
      }
      assert listed == [want] + listed[1..];
      assert Without(old(rules), want) == Without(listed[1..], want);
      assert multiset(listed)[want] == 1 + multiset(listed[1..])[want];
      DeleteCopies(listed, want);
    }

    /** The copies behind the first place, from the highest number down. */
    method DeleteCopies(listed: seq<Rule>, want: Rule)
      requires rules == listed != [] && listed[0] == want
      modifies this
      ensures rules == [want] + Without(listed[1..], want)
      ensures old(past) <= past && FirstSince(past, |old(past)|, want)
      ensures |past| == |old(past)| + multiset(listed[1..])[want]
    {
      var i := |listed| - 1;
      assert listed[i + 1..] == [] && listed[..i + 1] == listed;
      while i > 0
        invariant 0 <= i < |listed|
        invariant rules == listed[..i + 1] + Without(listed[i + 1..], want)
        invariant old(past) <= past && FirstSince(past, |old(past)|, want)
        invariant |past| == |old(past)| + multiset(listed[i + 1..])[want]
      {
        DropCopy(listed, i, want);
        assert listed[i..] == [listed[i]] + listed[i + 1..];
        if listed[i] == want {
          Delete(i + 1);
          assert rules[0] == listed[..i + 1][0] == want;
        }
        i := i - 1;
      }
    }
  }

  // ---------- tap addresses ----------

  datatype Address = Address(a: int, b: int, c: int, d: int)

  const LEGACY_MAX: int := 255
  const EXT_BLOCKS: int := 16384

  /** Host and guest address of a tap index; a negative index is an error. */
  function TapAddresses(index: int): (r: Option<(Address, Address)>)
    ensures r.Some? <==> index >= 0
  {
    if index < 0 then None
    else if index <= LEGACY_MAX then Some((Address(172, 18, index, 1), Address(172, 18, index, 2)))
    else
      var offset := ((index - LEGACY_MAX - 1) % EXT_BLOCKS) * 4;
      Some((Address(172, 19, offset / 256, offset % 256 + 1), Address(172, 19, offset / 256, offset % 256 + 2)))
  }

  function AsNumber(x: Address): int {
    ((x.a * 256 + x.b) * 256 + x.c) * 256 + x.d
  }

  predicate Octets(x: Address) {
    0 <= x.a < 256 && 0 <= x.b < 256 && 0 <= x.c < 256 && 0 <= x.d < 256
  }

  /** The two usable addresses of the /30 that starts at `base`. */
  predicate UsableIn(base: int, host: Address, guest: Address) {
    base % 4 == 0 && AsNumber(host) == base + 1 && AsNumber(guest) == base + 2
  }

  lemma OffsetSplits(block: int)
    requires 0 <= block < EXT_BLOCKS
    ensures var offset := block * 4;
      && 0 <= offset / 256 < 256 && 0 <= offset % 256 <= 252 && offset % 4 == 0
      && offset == 256 * (offset / 256) + offset % 256
  {
    var offset := block * 4;
    assert offset % 256 == block % 64 * 4;
  }

  lemma PairUsable(b: int, c: int, d: int) returns (base: int)
    requires 0 <= d && d % 4 == 0
    ensures base == ((172 * 256 + b) * 256 + c) * 256 + d
    ensures UsableIn(base, Address(172, b, c, d + 1), Address(172, b, c, d + 2))
  {
    base := ((172 * 256 + b) * 256 + c) * 256 + d;
    var quarter := ((172 * 256 + b) * 256 + c) * 64 + d / 4;
    assert base == 4 * quarter;
  }

  /** Every index maps to well-formed addresses, the usable pair of one aligned /30 in 172.18.0.0/16
      or 172.19.0.0/16. */
  lemma TapIsSlash30(index: nat) returns (base: int)
    ensures TapAddresses(index).Some?
    ensures var (host, guest) := TapAddresses(index).value;
      && Octets(host) && Octets(guest) && UsableIn(base, host, guest)
      && host.a == guest.a == 172 && host.b == guest.b == (if index <= 255 then 18 else 19)
      && (index <= 255 ==> host == Address(172, 18, index, 1))
      && (index > 255 ==> host.c * 256 + host.d == (index - 256) % 16384 * 4 + 1)
  {
    if index <= LEGACY_MAX {
      base := PairUsable(18, index, 0);
    } else {
      var block := (index - LEGACY_MAX - 1) % EXT_BLOCKS;
      OffsetSplits(block);
      base := PairUsable(19, block * 4 / 256, block * 4 % 256);
    }
  }

  /** Two indices share a /30 if and only if they are equal, or both are past the legacy range and a
      multiple of 16384 apart; otherwise their /30s are disjoint. */
  lemma TapCollidesExactly(i: nat, j: nat)
    ensures TapAddresses(i) == TapAddresses(j) <==>
            i == j || (i > LEGACY_MAX && j > LEGACY_MAX && (i - j) % EXT_BLOCKS == 0)
    ensures TapAddresses(i) != TapAddresses(j) ==>
            var x, y := AsNumber(TapAddresses(i).value.0), AsNumber(TapAddresses(j).value.0); x + 4 <= y || y + 4 <= x
  {
    var bi := TapIsSlash30(i);
    var bj := TapIsSlash30(j);
    if i > LEGACY_MAX && j > LEGACY_MAX {
      var p, q := i - LEGACY_MAX - 1, j - LEGACY_MAX - 1;
      SameRemainder(p, q);
      assert AsNumber(TapAddresses(i).value.0) == (172 * 256 + 19) * 65536 + (p % EXT_BLOCKS) * 4 + 1;
      assert AsNumber(TapAddresses(j).value.0) == (172 * 256 + 19) * 65536 + (q % EXT_BLOCKS) * 4 + 1;
    }
  }

  lemma SameRemainder(p: int, q: int)
    ensures p % EXT_BLOCKS == q % EXT_BLOCKS <==> (p - q) % EXT_BLOCKS == 0
  {
  }
}
