/**
 * The dashboard entry: which dashboard a user gets, and the translation key
 * a package status is shown under.
 */
module Dashboard {
  import opened Wrappers
  import opened Strings
  import opened Auth
  import opened Seqs

  datatype Screen = AdminDashboard | CustomerDashboard

  /** `DashboardScreen`: the admin dashboard for admins, the customer one otherwise (also with nobody signed in). */
  function DashboardFor(user: Option<User>): (d: Screen)
    ensures d == AdminDashboard <==> IsAdmin(user)
    ensures user.None? ==> d == CustomerDashboard
  {
    if IsAdmin(user) then AdminDashboard else CustomerDashboard
  }

  /** `replace(/ /g, '')`: drop every space, keep the other characters in order. */
  function RemoveSpaces(s: string): string {
    if s == [] then []
    else if s[0] == ' ' then RemoveSpaces(s[1..])
    else [s[0]] + RemoveSpaces(s[1..])
  }

  predicate NotSpace(c: char) { c != ' ' }

  /** The result is the input filtered to its non-space characters: same order, same counts. */
  lemma {:induction false} RemoveSpacesSpec(s: string)
    ensures RemoveSpaces(s) == Filter(s, NotSpace)
    ensures ' ' !in RemoveSpaces(s)
    ensures forall c :: c in RemoveSpaces(s) <==> c in s && c != ' '
    ensures |RemoveSpaces(s)| <= |s|
    ensures IsSubsequence(RemoveSpaces(s), s)
    ensures forall c :: c != ' ' ==> multiset(RemoveSpaces(s))[c] == multiset(s)[c]
  {
    if s != [] {
      RemoveSpacesSpec(s[1..]);
    }
    FilterCounts(s, NotSpace);
  }

  const KeyPrefix := "dashboard.status."

  /** The translation key for a package status. */
  function StatusKey(status: string): (k: string)
    ensures |k| >= |KeyPrefix| && k[..|KeyPrefix|] == KeyPrefix
  {
    KeyPrefix + Lower(RemoveSpaces(status))
  }

  /** The key's suffix holds no space and no upper-case letter. */
  lemma StatusKeySuffix(status: string)
    ensures var suffix := StatusKey(status)[|KeyPrefix|..];
            ' ' !in suffix && forall i :: 0 <= i < |suffix| ==> !IsUpperAscii(suffix[i])
  {
    var r := RemoveSpaces(status);
    RemoveSpacesSpec(status);
    var suffix := StatusKey(status)[|KeyPrefix|..];
    assert suffix == Lower(r);
    forall i | 0 <= i < |suffix|
      ensures suffix[i] != ' '
    {
      assert r[i] in r;
    }
  }

  /** Removing spaces and lower-casing can be done in either order. */
  lemma {:induction false} LowerRemoveSpacesCommute(s: string)
    ensures Lower(RemoveSpaces(s)) == RemoveSpaces(Lower(s))
  {
    if s != [] {
      LowerRemoveSpacesCommute(s[1..]);
      assert Lower(s)[1..] == Lower(s[1..]);
      if s[0] != ' ' {
        assert Lower([s[0]] + RemoveSpaces(s[1..])) == [LowerChar(s[0])] + Lower(RemoveSpaces(s[1..]));
      }
    }
  }

  /** The key does not depend on the status's case. */
  lemma StatusKeyIgnoresCase(status: string)
    ensures StatusKey(Lower(status)) == StatusKey(status)
  {
    LowerRemoveSpacesCommute(status);
    LowerRemoveSpacesCommute(Lower(status));
    LowerIdempotent(status);
  }

  lemma {:induction false} RemoveSpacesAppend(a: string, b: string)
    ensures RemoveSpaces(a + b) == RemoveSpaces(a) + RemoveSpaces(b)
  {
    if a != [] {
      assert (a + b)[0] == a[0];
      assert (a + b)[1..] == a[1..] + b;
      RemoveSpacesAppend(a[1..], b);
      assert [a[0]] + (RemoveSpaces(a[1..]) + RemoveSpaces(b)) == ([a[0]] + RemoveSpaces(a[1..])) + RemoveSpaces(b);
    } else {
      assert a + b == b;
    }
  }

  lemma {:induction false} RemoveSpacesNone(s: string)
    requires ' ' !in s
    ensures RemoveSpaces(s) == s
  {
    if s != [] {
      assert s[0] in s;
      assert ' ' !in s[1..];
      RemoveSpacesNone(s[1..]);
    }
  }

  /** Removing the one space between two words of a status joins them. */
  lemma JoinWords(a: string, b: string)
    requires ' ' !in a && ' ' !in b
    ensures RemoveSpaces(a + " " + b) == a + b
  {
    var sp := " ";
    var rs := RemoveSpaces(sp);
    assert rs == "" by { assert sp[1..] == ""; }
    RemoveSpacesAppend(a, sp);
    RemoveSpacesNone(a);
    assert a + rs == a;
    var asp := a + sp;
    assert RemoveSpaces(asp) == a;
    RemoveSpacesAppend(asp, b);
    RemoveSpacesNone(b);
  }

  /** The key of a two-word status: the words lower-cased and joined. */
  lemma StatusKeyOfTwoWords(a: string, b: string)
    requires ' ' !in a && ' ' !in b
    ensures StatusKey(a + " " + b) == KeyPrefix + Lower(a) + Lower(b)
  {
    JoinWords(a, b);
    LowerAppend(a, b);
  }

  /** The two multi-word statuses on the dashboard: 'In Transit' and 'Delivery Pending'. */
  lemma MultiWordStatusKeys(inTransit: string, deliveryPending: string)
    requires inTransit == "In Transit" && deliveryPending == "Delivery Pending"
    ensures StatusKey(inTransit) == "dashboard.status.intransit"
    ensures StatusKey(deliveryPending) == "dashboard.status.deliverypending"
  {
    assert "In" + " " + "Transit" == inTransit;
    StatusKeyOfTwoWords("In", "Transit");
    assert Lower("In") == "in";
    assert Lower("Transit") == "transit";
    assert "Delivery" + " " + "Pending" == deliveryPending;
    StatusKeyOfTwoWords("Delivery", "Pending");
    assert Lower("Delivery") == "delivery";
    assert Lower("Pending") == "pending";
  }
}
