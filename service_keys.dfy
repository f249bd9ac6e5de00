/**
 * The string side of the provider table: how a (service name, group) pair is
 * joined into one table key, and how an instance's combined name is split back
 * into a name and a group at its first '-'.
 */
module ServiceKeys {
  import opened Wrappers

  /** The separator placed between a service name and its group. */
  const Separator: char := '-'

  /** Java's string conversion of a reference that may be null. */
  function Text(s: Option<string>): string
  {
    match s
    case None => "null"
    case Some(v) => v
  }

  /** The provider-table key: serviceName + "-" + group, with null rendered as "null". */
  function KeyOf(serviceName: Option<string>, group: Option<string>): string
  {
    Text(serviceName) + [Separator] + Text(group)
  }

  /** A name and a group recovered from a combined instance name. */
  datatype NameGroup = NameGroup(name: string, group: string)

  /** The position of the first '-' in s, or |s| when s has none. */
  function FirstSeparator(s: string): (i: nat)
    ensures i <= |s|
    ensures Separator !in s[..i]
    ensures i < |s| <==> Separator in s
    ensures i < |s| ==> s[i] == Separator
  {
    if s == [] then 0
    else if s[0] == Separator then 0
    else
      var j := FirstSeparator(s[1..]);
      assert s[..1 + j] == [s[0]] + s[1..][..j];
      assert Separator in s[1..] ==> Separator in s;
      assert Separator in s ==> Separator in s[1..] by {
        if Separator in s {
          var k :| 0 <= k < |s| && s[k] == Separator;
          assert k > 0 && s[1..][k - 1] == Separator;
        }
      }
      1 + j
  }

  /**
   * Splits a combined instance name into at most two parts at its first '-'
   * (Java's split("-", 2)); without a '-' the whole string is the name and
   * the group is empty.
   */
  function SplitNameGroup(s: string): (r: NameGroup)
    ensures Separator !in r.name
    ensures Separator in s ==> r.name + [Separator] + r.group == s
    ensures Separator !in s ==> r == NameGroup(s, "")
  {
    var i := FirstSeparator(s);
    if i < |s| then
      assert s[..i] + [Separator] + s[i + 1..] == s;
      NameGroup(s[..i], s[i + 1..])
    else
      assert s[..i] == s;
      NameGroup(s, "")
  }

  /**
   * Splitting a joined key gives back the pair exactly when the name has no
   * '-': the split point is the first separator, which is the joining one
   * only if the name contributes none of its own.
   */
  lemma {:induction false} SplitJoin(name: string, group: string)
    ensures SplitNameGroup(name + [Separator] + group) == NameGroup(name, group) <==> Separator !in name
  {
    var s := name + [Separator] + group;
    if Separator !in name {
      assert s[|name|] == Separator;
      var i := FirstSeparator(s);
      assert i == |name| by {
        assert s[..|name| + 1][|name|] == Separator;
      }
      assert s[..i] == name;
      assert s[i + 1..] == group;
    }
  }

  /** Keys of two pairs whose names have no '-' coincide only if the pairs do. */
  lemma {:induction false} KeyDeterminesDashFreePair(n1: string, g1: string, n2: string, g2: string)
    requires Separator !in n1 && Separator !in n2
    requires KeyOf(Some(n1), Some(g1)) == KeyOf(Some(n2), Some(g2))
    ensures n1 == n2 && g1 == g2
  {
    SplitJoin(n1, g1);
    SplitJoin(n2, g2);
  }

  /**
   * The join is not injective: moving a '-'-separated segment from the end of
   * the name to the front of the group gives the same key.
   */
  lemma KeyCollision(name: string, middle: string, group: string)
    ensures KeyOf(Some(name + [Separator] + middle), Some(group))
         == KeyOf(Some(name), Some(middle + [Separator] + group))
  {
  }

  /** A null name or group yields the same key as the literal string "null". */
  lemma NullKeyCollision(serviceName: Option<string>, group: Option<string>)
    ensures KeyOf(None, group) == KeyOf(Some("null"), group)
    ensures KeyOf(serviceName, None) == KeyOf(serviceName, Some("null"))
  {
  }
}
