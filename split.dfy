/** The split-expense calculator: a member list with a selection flag per
    member, an amount field, the per-member result lines of the last split
    and the history of splits (newest first). Amounts are whole cents; the
    share is printed as `(total / count).toFixed(0)`, whole yuan. */
module Split {

  import opened Opt
  import Text
  import Lists
  import Dates

  datatype Member = Member(id: string, name: string, selected: bool)

  /** A result line: the member's id and `${name} 應付 ${share} 元`. */
  datatype ResultLine = ResultLine(id: string, text: string)

  /** A past split: its id, the stamp `toLocaleString` gave, the amount in
      cents and the result lines. */
  datatype HistoryEntry = HistoryEntry(id: string, date: string, amount: int, members: seq<ResultLine>)

  /** The members a fresh install starts with. */
  const DefaultMembers: seq<Member> := [Member("1", "小明", true), Member("2", "小華", true)]

  // ---------------------------------------------------------------------
  // toFixed(0) of total / count
  // ---------------------------------------------------------------------

  /** The whole number nearest to a / b, the larger one on a tie, which is
      how `toFixed` rounds a non-negative number. */
  function RoundHalfUp(a: nat, b: nat): (q: nat)
    requires b > 0
    ensures 2 * a - b <= 2 * q * b <= 2 * a + b
    ensures 2 * q * b != 2 * a - b
  {
    (2 * a + b) / (2 * b)
  }

  /** `(total / count).toFixed(0)` for a total in cents: the sign of a
      negative quotient, then its magnitude rounded as RoundHalfUp does
      (so a small negative share prints as "-0"). */
  function ShareText(cents: int, count: nat): (r: string)
    requires count > 0
    ensures r != [] && (cents < 0 <==> r[0] == '-')
  {
    if cents < 0 then "-" + Text.NatText(RoundHalfUp(-cents, 100 * count))
    else Text.NatText(RoundHalfUp(cents, 100 * count))
  }

  /** The share as a number: what the share text reads back as. */
  function Share(cents: int, count: nat): int
    requires count > 0
  {
    if cents < 0 then -(RoundHalfUp(-cents, 100 * count) as int) else RoundHalfUp(cents, 100 * count)
  }

  /** The share text reads back as the share. */
  lemma ShareTextReadsBack(cents: int, count: nat)
    requires count > 0
    ensures Dates.ParseInt(ShareText(cents, count)) == Some(Share(cents, count))
  {
    var q := RoundHalfUp(if cents < 0 then -cents else cents, 100 * count);
    Text.ParseNatText(q);
    var t := Text.NatText(q);
    if cents < 0 {
      assert ShareText(cents, count)[1..] == t;
    } else {
      assert t[0] != '-';
    }
  }

  /** Rounding to the nearest whole yuan is off by at most half a yuan per
      member: count shares together miss the total by at most half a yuan
      per member. */
  lemma ShareIsNearest(cents: int, count: nat)
    requires count > 0
    ensures -50 * count <= 100 * count * Share(cents, count) - cents <= 50 * count
  {
    var b := 100 * count;
    var m := if cents < 0 then -cents else cents;
    var q := RoundHalfUp(m, b);
    assert 2 * m - b <= 2 * q * b <= 2 * m + b;
    assert q * b == 100 * count * q;
  }

  /** An evenly divisible total gives the exact share, and 100.00 among
      three gives 33. */
  lemma ShareExactAndNearest()
    ensures ShareText(30000, 3) == "100"
    ensures ShareText(10000, 3) == "33"
  {
    assert RoundHalfUp(30000, 300) == 100;
    assert RoundHalfUp(10000, 300) == 33;
    assert Text.NatText(1) == "1" && Text.NatText(0) == "0" && Text.NatText(3) == "3";
    assert Text.NatText(10) == "10";
    assert Text.NatText(100) == "100";
    assert Text.NatText(33) == "33";
  }

  /** 10.00 among four is 2.5, which rounds away from zero either way. */
  lemma ShareTiesAwayFromZero()
    ensures ShareText(1000, 4) == "3"
    ensures ShareText(-1000, 4) == "-3"
  {
    assert RoundHalfUp(1000, 400) == 3;
    assert Text.NatText(3) == "3";
  }

  /** A negative share smaller than half a yuan prints as "-0". */
  lemma ShareNegativeZero()
    ensures ShareText(-10, 1) == "-0"
  {
    assert RoundHalfUp(10, 100) == 0;
    assert Text.NatText(0) == "0";
  }

  /** The result line of one member. */
  function LineFor(m: Member, share: string): ResultLine
  {
    ResultLine(m.id, m.name + " 應付 " + share + " 元")
  }

  // ---------------------------------------------------------------------
  // The member list
  // ---------------------------------------------------------------------

  function SelectedMembers(members: seq<Member>): (r: seq<Member>)
    ensures forall k :: 0 <= k < |r| ==> r[k].selected
  {
    Lists.Filter(members, (m: Member) => m.selected)
  }

  /** `prev.map(m => m.id === id ? { ...m, selected: !m.selected } : m)`. */
  function Toggled(members: seq<Member>, id: string): (r: seq<Member>)
    ensures |r| == |members|
    ensures forall k :: 0 <= k < |r| ==> r[k].id == members[k].id && r[k].name == members[k].name
    ensures forall k :: 0 <= k < |r| ==> (r[k].selected <==> (members[k].selected != (members[k].id == id)))
  {
    seq(|members|, k requires 0 <= k < |members| =>
      var m := members[k];
      if m.id == id then m.(selected := !m.selected) else m)
  }

  /** Toggling the same id twice restores the list. */
  lemma ToggleTwice(members: seq<Member>, id: string)
    ensures Toggled(Toggled(members, id), id) == members
  {
    var r := Toggled(Toggled(members, id), id);
    assert forall k :: 0 <= k < |r| ==> r[k] == members[k];
  }

  /** Toggling two ids in either order gives the same list. */
  lemma ToggleCommutes(members: seq<Member>, a: string, b: string)
    ensures Toggled(Toggled(members, a), b) == Toggled(Toggled(members, b), a)
  {
    var x := Toggled(Toggled(members, a), b);
    var y := Toggled(Toggled(members, b), a);
    assert forall k :: 0 <= k < |x| ==> x[k] == y[k];
  }

  /** The result lines: one per selected member, in list order. */
  function ResultLines(selected: seq<Member>, share: string): (r: seq<ResultLine>)
    ensures |r| == |selected|
    ensures forall k :: 0 <= k < |r| ==> r[k] == LineFor(selected[k], share)
  {
    seq(|selected|, k requires 0 <= k < |selected| => LineFor(selected[k], share))
  }

  datatype SplitOutcome = Calculated | NoAmount | NoneSelected

  class SplitCalculator {
    var newMemberName: string
    var members: seq<Member>
    var totalAmount: Option<int>   // the amount field, parsed; None while empty or not a number
    var results: seq<ResultLine>
    var history: seq<HistoryEntry>

    /** The screen after mounting; `stored` is the member list in storage,
        None when there is none. */
    constructor (stored: Option<seq<Member>>)
      ensures members == if stored.Some? then stored.value else DefaultMembers
      ensures newMemberName == "" && totalAmount == None && results == [] && history == []
    {
      newMemberName, totalAmount, results, history := "", None, [], [];
      members := if stored.Some? then stored.value else DefaultMembers;
    }

    /** Typing into the member-name field. */
    method TypeMemberName(name: string)
      modifies this`newMemberName
      ensures newMemberName == name
    {
      newMemberName := name;
    }

    /** Typing into the amount field; None while it is empty or not a number. */
    method TypeAmount(a: Option<int>)
      modifies this`totalAmount
      ensures totalAmount == a
    {
      totalAmount := a;
    }

    /** `addMember`: appends a selected member named by the trimmed input and
        clears the input; a blank input changes nothing. */
    method AddMember(id: string) returns (added: bool)
      modifies this`members, this`newMemberName
      ensures added <==> Text.Trim(old(newMemberName)) != []
      ensures added ==> members == old(members) + [Member(id, Text.Trim(old(newMemberName)), true)]
                        && newMemberName == ""
      ensures !added ==> members == old(members) && newMemberName == old(newMemberName)
    {
      var name := Text.Trim(newMemberName);
      if name == [] {
        return false;
      }
      members := members + [Member(id, name, true)];
      newMemberName := "";
      added := true;
    }

    /** `removeMember`: drops every member with that id. */
    method RemoveMember(id: string)
      modifies this`members
      ensures members == Lists.Filter(old(members), (m: Member) => m.id != id)
      ensures forall k :: 0 <= k < |members| ==> members[k].id != id
      ensures Lists.IsSubsequence(members, old(members))
    {
      Lists.FilterIsSubsequence(members, (m: Member) => m.id != id);
      members := Lists.Filter(members, (m: Member) => m.id != id);
    }

    /** `toggleSelectMember`: flips the selection of the members with that
        id. */
    method ToggleSelectMember(id: string)
      modifies this`members
      ensures members == Toggled(old(members), id)
    {
      members := Toggled(members, id);
    }

    /** `calculateSplit`: with an amount and at least one selected member,
        sets one result line per selected member carrying the rounded share,
        and puts the split in front of the history; otherwise changes
        nothing (the no-member case raises an alert). */
    method CalculateSplit(id: string, stamp: string) returns (outcome: SplitOutcome)
      modifies this`results, this`history
      ensures outcome == (if totalAmount.None? then NoAmount
                          else if SelectedMembers(members) == [] then NoneSelected
                          else Calculated)
      ensures outcome != Calculated ==> results == old(results) && history == old(history)
      ensures outcome == Calculated ==>
                var selected := SelectedMembers(members);
                results == ResultLines(selected, ShareText(totalAmount.value, |selected|))
                && history == [HistoryEntry(id, stamp, totalAmount.value, results)] + old(history)
    {
      if totalAmount.None? {
        return NoAmount;
      }
      var total := totalAmount.value;
      var selected := SelectedMembers(members);
      if |selected| == 0 {
        return NoneSelected;
      }
      var share := ShareText(total, |selected|);
      var resultList := ResultLines(selected, share);
      results := resultList;
      history := [HistoryEntry(id, stamp, total, resultList)] + history;
      outcome := Calculated;
    }

    /** `clearAmount`: empties the amount field and the result lines. */
    method ClearAmount()
      modifies this`totalAmount, this`results
      ensures totalAmount == None && results == []
    {
      totalAmount := None;
      results := [];
    }

    /** `deleteHistoryItem`: drops every history entry with that id. */
    method DeleteHistoryItem(id: string)
      modifies this`history
      ensures history == Lists.Filter(old(history), (h: HistoryEntry) => h.id != id)
      ensures forall k :: 0 <= k < |history| ==> history[k].id != id
      ensures Lists.IsSubsequence(history, old(history))
    {
      Lists.FilterIsSubsequence(history, (h: HistoryEntry) => h.id != id);
      history := Lists.Filter(history, (h: HistoryEntry) => h.id != id);
    }
  }

  /** A split's result lines name exactly the selected members, in list
      order, each with the same share. */
  lemma ResultLinesNameSelected(members: seq<Member>, cents: int)
    requires SelectedMembers(members) != []
    ensures var selected := SelectedMembers(members);
            var lines := ResultLines(selected, ShareText(cents, |selected|));
            |lines| == |selected|
            && (forall k :: 0 <= k < |lines| ==> lines[k].id == selected[k].id && selected[k].selected)
            && (forall m :: m in selected <==> m in members && m.selected)
  {
    Lists.FilterKeepsMembers(members, (m: Member) => m.selected);
  }
}
