/** The group screen: the list of groups (newest first), each with a six
    character join code, and the two input fields. Creating a group draws
    its code from the base-36 text of a random number; joining only looks
    the typed code up among the groups already on the list. */
module Groups {

  import opened Opt
  import Text
  import Lists

  datatype Group = Group(id: string, name: string, code: string)

  // ---------------------------------------------------------------------
  // generateCode
  // ---------------------------------------------------------------------

  /** The digit characters of `Number.prototype.toString(36)`. */
  function Base36Char(d: nat): (c: char)
    requires d < 36
    ensures d < 10 ==> Text.IsDigit(c)
    ensures d >= 10 ==> Text.IsLowerAscii(c)
  {
    if d < 10 then Text.DigitChar(d) else ('a' as int + (d - 10)) as char
  }

  predicate Base36Digits(digits: seq<nat>)
  {
    forall k :: 0 <= k < |digits| ==> digits[k] < 36
  }

  /** `Math.random().toString(36)` for the random number whose base-36
      fraction digits are `digits`: "0" for zero, else "0." and the digits. */
  function RandomText(digits: seq<nat>): (r: string)
    requires Base36Digits(digits)
    ensures digits != [] ==> |r| == |digits| + 2 && r[..2] == "0."
    ensures digits == [] ==> r == "0"
  {
    if digits == [] then "0"
    else "0." + seq(|digits|, k requires 0 <= k < |digits| => Base36Char(digits[k]))
  }

  /** `String.prototype.substring(start, end)` for start <= end: the
      indices are clamped to the length. */
  function Substring(s: string, start: nat, end: nat): (r: string)
    requires start <= end
    ensures |r| == (if end <= |s| then end else |s|) - (if start <= |s| then start else |s|)
  {
    var e := if end <= |s| then end else |s|;
    var b := if start <= |s| then start else |s|;
    s[b..e]
  }

  predicate IsCodeChar(c: char)
  {
    Text.IsDigit(c) || ('A' <= c <= 'Z')
  }

  /** `generateCode`: the characters 2 to 8 of the random text, upper-cased. */
  function GenerateCode(digits: seq<nat>): (code: string)
    requires Base36Digits(digits)
    ensures |code| == if |digits| < 6 then |digits| else 6
    ensures forall k :: 0 <= k < |code| ==> IsCodeChar(code[k])
  {
    Text.ToUpper(Substring(RandomText(digits), 2, 8))
  }

  /** The value of a code character: 0-9, then A-Z for 10-35. */
  function CodeCharValue(c: char): (d: nat)
    requires IsCodeChar(c)
    ensures d < 36
  {
    if Text.IsDigit(c) then Text.DigitValue(c) else c as int - 'A' as int + 10
  }

  /** A code is the first six base-36 digits of the random number: reading
      it back gives those digits. */
  lemma GenerateCodeDigits(digits: seq<nat>)
    requires Base36Digits(digits)
    ensures var code := GenerateCode(digits);
            forall k :: 0 <= k < |code| ==> CodeCharValue(code[k]) == digits[k]
  {
    var code := GenerateCode(digits);
    if digits != [] {
      var t := RandomText(digits);
      forall k | 0 <= k < |code| ensures CodeCharValue(code[k]) == digits[k] {
        assert Substring(t, 2, 8)[k] == t[k + 2] == Base36Char(digits[k]);
      }
    }
  }

  /** Two random numbers give the same code exactly when they agree in their
      first six base-36 digits. */
  lemma GenerateCodeDependsOnSixDigits(a: seq<nat>, b: seq<nat>)
    requires Base36Digits(a) && Base36Digits(b)
    ensures GenerateCode(a) == GenerateCode(b) <==>
              (if |a| < 6 then a else a[..6]) == (if |b| < 6 then b else b[..6])
  {
    GenerateCodeDigits(a);
    GenerateCodeDigits(b);
    var ca, cb := GenerateCode(a), GenerateCode(b);
    var pa := if |a| < 6 then a else a[..6];
    var pb := if |b| < 6 then b else b[..6];
    if pa == pb {
      assert |ca| == |cb|;
      forall k | 0 <= k < |ca| ensures ca[k] == cb[k] {
        var t, u := RandomText(a), RandomText(b);
        assert pa[k] == a[k] && pb[k] == b[k];
        assert Substring(t, 2, 8)[k] == t[k + 2] == Base36Char(a[k]);
        assert Substring(u, 2, 8)[k] == u[k + 2] == Base36Char(b[k]);
      }
    }
    if ca == cb {
      assert |pa| == |pb|;
      forall k | 0 <= k < |pa| ensures pa[k] == pb[k] {
        assert CodeCharValue(ca[k]) == a[k] && CodeCharValue(cb[k]) == b[k];
      }
    }
  }

  /** A random number whose base-36 text has fewer than six fraction
      digits gives a shorter code; zero gives the empty code. */
  lemma ShortCodes()
    ensures GenerateCode([]) == ""
    ensures GenerateCode([18]) == "I"
  {
    assert RandomText([18]) == "0.i";
    assert Substring("0.i", 2, 8) == "i";
  }

  // ---------------------------------------------------------------------
  // joinGroup
  // ---------------------------------------------------------------------

  /** `groups.find(g => g.code === code)`. */
  function FindByCode(groups: seq<Group>, code: string): (r: Option<Group>)
    ensures r.Some? <==> exists k :: 0 <= k < |groups| && groups[k].code == code
    ensures r.Some? ==> r.value in groups && r.value.code == code
  {
    if groups == [] then None
    else if groups[0].code == code then Some(groups[0])
    else
      var rest := FindByCode(groups[1..], code);
      assert forall k :: 1 <= k < |groups| ==> groups[k] == groups[1..][k - 1];
      rest
  }

  /** The code as `joinGroup` reads it from the field. */
  function TypedCode(input: string): string
  {
    Text.ToUpper(Text.Trim(input))
  }

  /** Typing a group's code back, in either case and with surrounding
      spaces, finds a group with that code. */
  lemma TypedCodeFindsGroup(groups: seq<Group>, k: nat, before: string, after: string)
    requires k < |groups| && groups[k].code != []
    requires forall j :: 0 <= j < |groups[k].code| ==> IsCodeChar(groups[k].code[j])
    requires Text.AllSpace(before) && Text.AllSpace(after)
    ensures FindByCode(groups, TypedCode(before + groups[k].code + after)).Some?
  {
    var code := groups[k].code;
    assert IsCodeChar(code[0]) && IsCodeChar(code[|code| - 1]);
    Text.TrimPadded(before, code, after);
    CodeIsUpperCase(code);
    assert TypedCode(before + code + after) == groups[k].code;
  }

  /** A code is already in upper case. */
  lemma CodeIsUpperCase(code: string)
    requires forall j :: 0 <= j < |code| ==> IsCodeChar(code[j])
    ensures Text.ToUpper(code) == code
  {
    forall j | 0 <= j < |code| ensures Text.UpperChar(code[j]) == code[j] {
      assert !Text.IsLowerAscii(code[j]);
    }
  }

  datatype JoinOutcome = BlankCode | AlreadyJoined | NoSuchGroup

  class GroupScreen {
    var groupName: string
    var joinCode: string
    var groups: seq<Group>

    /** The screen after mounting; `stored` is the list in storage, None when
        there is none. */
    constructor (stored: Option<seq<Group>>)
      ensures groupName == "" && joinCode == ""
      ensures groups == if stored.Some? then stored.value else []
    {
      groupName, joinCode := "", "";
      groups := if stored.Some? then stored.value else [];
    }

    /** Typing into the group-name field. */
    method TypeGroupName(name: string)
      modifies this`groupName
      ensures groupName == name
    {
      groupName := name;
    }

    /** Typing into the join-code field. */
    method TypeJoinCode(code: string)
      modifies this`joinCode
      ensures joinCode == code
    {
      joinCode := code;
    }

    /** `createGroup`: a blank name changes nothing; otherwise the new group,
        named by the trimmed field and carrying a fresh code, goes in front
        and the field is cleared. */
    method CreateGroup(id: string, digits: seq<nat>) returns (created: bool)
      requires Base36Digits(digits)
      modifies this`groups, this`groupName
      ensures created <==> Text.Trim(old(groupName)) != []
      ensures created ==> groups == [Group(id, Text.Trim(old(groupName)), GenerateCode(digits))] + old(groups)
                          && groupName == ""
      ensures !created ==> groups == old(groups) && groupName == old(groupName)
    {
      var name := Text.Trim(groupName);
      if name == [] {
        return false;
      }
      var newGroup := Group(id, name, GenerateCode(digits));
      groups := [newGroup] + groups;
      groupName := "";
      created := true;
    }

    /** `joinGroup`: a blank field does nothing; otherwise the typed code is
        looked up (the answer is one of the two alerts) and the field is
        cleared. The list never changes. */
    method JoinGroup() returns (outcome: JoinOutcome)
      modifies this`joinCode
      ensures outcome == (if TypedCode(old(joinCode)) == [] then BlankCode
                          else if FindByCode(groups, TypedCode(old(joinCode))).Some? then AlreadyJoined
                          else NoSuchGroup)
      ensures joinCode == if outcome == BlankCode then old(joinCode) else ""
    {
      var trimmedCode := TypedCode(joinCode);
      if trimmedCode == [] {
        return BlankCode;
      }
      var found := FindByCode(groups, trimmedCode);
      outcome := if found.Some? then AlreadyJoined else NoSuchGroup;
      joinCode := "";
    }

    /** `deleteGroup`, confirmed: drops every group with that id. */
    method DeleteGroup(id: string)
      modifies this`groups
      ensures groups == Lists.Filter(old(groups), (g: Group) => g.id != id)
      ensures forall k :: 0 <= k < |groups| ==> groups[k].id != id
      ensures Lists.IsSubsequence(groups, old(groups))
    {
      Lists.FilterIsSubsequence(groups, (g: Group) => g.id != id);
      groups := Lists.Filter(groups, (g: Group) => g.id != id);
    }
  }
}
