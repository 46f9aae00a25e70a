/**
 The text in which policy rules and firewall rules are persisted, and the parsers that read it
 back on revalidation and on allocation recovery.
 */
module PersistedText {
  import opened Wrappers
  import Text

  datatype PolicyRule = PolicyRule(priority: int, selector: string, table: string)

  /** policyRuleTarget. */
  function PolicyTarget(r: PolicyRule): string {
    "priority " + Text.PrintInt(r.priority) + " " + r.selector + " lookup " + r.table
  }

  predicate HasPrefix(s: string, prefix: string) {
    prefix <= s
  }

  // ---------------------------------------------------------------- policy rules

  /** parsePersistedTunPolicyRule. */
  function ParsePersisted(target: string): Option<PolicyRule> {
    var fields := Text.Fields(target);
    if |fields| < 6 || fields[0] != "priority" || fields[|fields| - 2] != "lookup" then None
    else
      var priority := Text.Atoi(fields[1]);
      var selector := Text.Words(fields[2..|fields| - 2]);
      if priority.None? || priority.value <= 0 then None
      else if !(HasPrefix(selector, "from ") || HasPrefix(selector, "to ") || HasPrefix(selector, "fwmark ")) then None
      else if Text.Trim(fields[|fields| - 1]) == "" then None
      else Some(PolicyRule(priority.value, selector, Text.Trim(fields[|fields| - 1])))
  }

  /** The first "lookup" at or after `i` that is not the last field. */
  function FirstLookup(fields: seq<string>, i: nat): Option<nat>
    requires i <= |fields|
    decreases |fields| - i
  {
    if i + 1 >= |fields| then None
    else if fields[i] == "lookup" then Some(i)
    else FirstLookup(fields, i + 1)
  }

  /** parsePlannedPolicyRuleTarget. */
  function ParsePlanned(target: string): Option<PolicyRule> {
    var fields := Text.Fields(Text.Trim(target));
    if |fields| < 5 || fields[0] != "priority" then None
    else
      var priority, lookup := Text.Atoi(fields[1]), FirstLookup(fields, 2);
      if priority.None? || priority.value <= 0 then None
      else if lookup.None? || lookup.value <= 2 || lookup.value + 1 != |fields| - 1 then None
      else
        var selector := Text.Words(fields[2..lookup.value]);
        if selector == "" || fields[lookup.value + 1] == "" then None
        else Some(PolicyRule(priority.value, selector, fields[lookup.value + 1]))
  }

  /** A rule whose parts survive splitting at spaces. */
  predicate Printable(r: PolicyRule) {
    0 < r.priority < Text.INT_LIMIT && Text.Normal(r.selector) && r.selector != "" && Text.IsWord(r.table)
  }

  predicate Directed(selector: string) {
    HasPrefix(selector, "from ") || HasPrefix(selector, "to ") || HasPrefix(selector, "fwmark ")
  }

  function TargetFields(r: PolicyRule): seq<string> {
    ["priority", Text.PrintInt(r.priority)] + Text.Fields(r.selector) + ["lookup", r.table]
  }

  lemma TwoWords(a: string, b: string)
    ensures Text.Words([a, b]) == a + " " + b
  {
    assert [a, b][1..] == [b];
  }

  lemma TargetWords(p: string, words: seq<string>, table: string)
    requires words != []
    ensures Text.Words(["priority", p] + words + ["lookup", table])
      == "priority " + p + " " + Text.Words(words) + " lookup " + table
  {
    TwoWords("priority", p);
    TwoWords("lookup", table);
    Text.WordsAppend(["priority", p], words);
    Text.WordsAppend(["priority", p] + words, ["lookup", table]);
    assert "priority" + " " == "priority " && "lookup" + " " == "lookup " && " " + "lookup " == " lookup ";
  }

  /** The printed target is its fields joined by single spaces. */
  lemma TargetSplits(r: PolicyRule)
    requires Printable(r)
    ensures Text.Fields(PolicyTarget(r)) == TargetFields(r) && Text.Fields(r.selector) != []
  {
    Text.FieldsAreWords(r.selector);
    Text.AtoiDecimal(r.priority);
    var p, words := Text.PrintInt(r.priority), Text.Fields(r.selector);
    TargetWords(p, words, r.table);
    TargetAllWords(p, words, r.table);
    Text.FieldsOfWords(["priority", p] + words + ["lookup", r.table]);
  }

  lemma TargetAllWords(p: string, words: seq<string>, table: string)
    requires Text.IsWord(p) && Text.AllWords(words) && Text.IsWord(table)
    ensures Text.AllWords(["priority", p] + words + ["lookup", table])
  {
    assert Text.IsWord("priority") && Text.IsWord("lookup");
  }

  /** It starts and ends with text, so trimming leaves it alone. */
  lemma TargetTrimmed(r: PolicyRule)
    requires Text.IsWord(r.table)
    ensures Text.Trim(PolicyTarget(r)) == PolicyTarget(r)
  {
    var target := PolicyTarget(r);
    assert target[0] == "priority "[0];
    assert target[|target| - 1] == r.table[|r.table| - 1];
    Text.TrimTrims(target);
  }

  /** Revalidation reads a printable rule back exactly when its selector has a direction and an operand. */
  lemma PersistedInverts(r: PolicyRule)
    requires Printable(r)
    ensures ParsePersisted(PolicyTarget(r)) == Some(r) <==> |Text.Fields(r.selector)| >= 2 && Directed(r.selector)
    ensures ParsePersisted(PolicyTarget(r)) in {Some(r), None}
  {
    TargetSplits(r);
    var fields := TargetFields(r);
    assert fields[2..|fields| - 2] == Text.Fields(r.selector);
    Text.AtoiDecimal(r.priority);
    Text.TrimTrims(r.table);
  }

  lemma {:induction false} FirstLookupSkips(fields: seq<string>, i: nat, n: nat)
    requires i <= n && n + 1 < |fields| && fields[n] == "lookup"
    ensures FirstLookup(fields, i) == Some(n) <==> "lookup" !in fields[i..n]
    ensures FirstLookup(fields, i).Some? && i <= FirstLookup(fields, i).value <= n
    decreases n - i
  {
    if i < n {
      assert fields[i..n] == [fields[i]] + fields[i + 1..n];
      if fields[i] != "lookup" { FirstLookupSkips(fields, i + 1, n); }
    }
  }

  /** Allocation recovery reads it back exactly when the selector does not contain the word lookup. */
  lemma PlannedInverts(r: PolicyRule)
    requires Printable(r)
    ensures ParsePlanned(PolicyTarget(r)) == Some(r) <==> "lookup" !in Text.Fields(r.selector)
    ensures ParsePlanned(PolicyTarget(r)) in {Some(r), None}
  {
    TargetSplits(r);
    TargetTrimmed(r);
    var fields := TargetFields(r);
    var n := |fields| - 2;
    assert fields[2..n] == Text.Fields(r.selector);
    FirstLookupSkips(fields, 2, n);
    Text.AtoiDecimal(r.priority);
    Text.FieldsAreWords(r.selector);
  }

  /** A normal selector with a direction has an operand too: one word contains no space. */
  lemma DirectedHasOperand(r: PolicyRule)
    requires Printable(r) && Directed(r.selector)
    ensures |Text.Fields(r.selector)| >= 2
  {
    Text.FieldsAreWords(r.selector);
    assert r.selector[2] == ' ' || r.selector[4] == ' ' || r.selector[6] == ' ';
  }

  /** So on rules with a direction and no lookup word the two parsers agree, and both invert the printer. */
  lemma ParsersAgree(r: PolicyRule)
    requires Printable(r)
    ensures ParsePersisted(PolicyTarget(r)) == ParsePlanned(PolicyTarget(r)) == Some(r)
      <==> Directed(r.selector) && "lookup" !in Text.Fields(r.selector)
  {
    PersistedInverts(r);
    PlannedInverts(r);
    if Directed(r.selector) { DirectedHasOperand(r); }
  }

  /** They do part ways: a rule revalidation accepts can be one allocation recovery cannot read. */
  lemma ParsersDisagree() returns (r: PolicyRule)
    ensures Printable(r) && ParsePersisted(PolicyTarget(r)) == Some(r) && ParsePlanned(PolicyTarget(r)) == None
  {
    var words := ["to", "lookup", "x"];
    r := PolicyRule(1, Text.Words(words), "t");
    Text.FieldsOfWords(words);
    assert Text.Words(words) == "to" + " " + Text.Words(words[1..]);
    assert HasPrefix(r.selector, "to ");
    assert words[1] in words;
    PersistedInverts(r);
    PlannedInverts(r);
  }

  // ---------------------------------------------------------------- rollback selectors

  datatype RuleRollback = RuleRollback(priority: int, table: string, from_: string, to: string, mark: string)

  /** policyRuleRollback. */
  function RollbackOf(r: PolicyRule): RuleRollback {
    var s := Text.Trim(r.selector);
    var empty := RuleRollback(r.priority, r.table, "", "", "");
    if HasPrefix(s, "to ") then empty.(to := Text.Trim(s[3..]))
    else if HasPrefix(s, "from ") then empty.(from_ := Text.Trim(s[5..]))
    else if HasPrefix(s, "fwmark ") then empty.(mark := Text.Trim(s[7..]))
    else empty.(from_ := s)
  }

  /** policyRuleRollbackSelector. */
  function RollbackSelector(r: RuleRollback): string {
    var s := Text.Trim(r.from_);
    if Text.Trim(r.to) != "" then "to " + Text.Trim(r.to)
    else if Text.Trim(r.mark) != "" then "fwmark " + Text.Trim(r.mark)
    else if s != "" && !HasPrefix(s, "from ") then "from " + s
    else s
  }

  /** policyRuleRollbackTarget. */
  function RollbackTarget(r: RuleRollback): string {
    "priority " + Text.PrintInt(r.priority) + " " + RollbackSelector(r) + " lookup " + r.table
  }

  /** One direction and one trimmed operand; a "from" operand must not itself start with "from ". */
  predicate CanonicalSelector(s: string) {
    || s == ""
    || (HasPrefix(s, "to ") && Operand(s[3..]))
    || (HasPrefix(s, "fwmark ") && Operand(s[7..]))
    || (HasPrefix(s, "from ") && Operand(s[5..]) && !HasPrefix(s[5..], "from "))
  }

  predicate Operand(x: string) {
    x != "" && Text.Trimmed(x)
  }

  lemma OperandTrim(x: string)
    ensures Operand(x) <==> x != "" && Text.Trim(x) == x
    ensures Text.Trim(Text.Trim(x)) == Text.Trim(x)
  {
    Text.TrimTrims(x);
  }

  /** Cutting a direction off a trimmed selector leaves an operand that still ends in text. */
  lemma CutOperand(s: string, n: nat)
    requires Text.Trimmed(s) && n < |s|
    ensures Text.Trim(s[n..]) != ""
  {
    var x := s[n..];
    assert x[|x| - 1] == s[|s| - 1];
    KeepsEnd(x);
  }

  lemma {:induction false} KeepsEnd(x: string)
    requires x != [] && !Text.IsSpace(x[|x| - 1])
    ensures Text.TrimLeft(x) != [] && Text.TrimLeft(x)[|Text.TrimLeft(x)| - 1] == x[|x| - 1]
    ensures Text.Trim(x) == Text.TrimLeft(x)
  {
    if Text.IsSpace(x[0]) {
      assert |x| > 1;
      KeepsEnd(x[1..]);
    }
  }

  lemma TrimmedPrefix(s: string)
    requires Text.Trimmed(s)
    ensures HasPrefix(s, "to ") ==> |s| > 3
    ensures HasPrefix(s, "from ") ==> |s| > 5
    ensures HasPrefix(s, "fwmark ") ==> |s| > 7
  {
  }

  lemma PrefixesDiffer(s: string)
    ensures !(HasPrefix(s, "to ") && HasPrefix(s, "from ")) && !(HasPrefix(s, "to ") && HasPrefix(s, "fwmark "))
    ensures !(HasPrefix(s, "from ") && HasPrefix(s, "fwmark "))
  {
    assert HasPrefix(s, "to ") ==> s[0] == "to "[0];
    assert HasPrefix(s, "from ") ==> s[0] == "from "[0] && s[1] == "from "[1];
    assert HasPrefix(s, "fwmark ") ==> s[0] == "fwmark "[0] && s[1] == "fwmark "[1];
  }

  predicate Direction(d: string) {
    d == "to " || d == "from " || d == "fwmark "
  }

  lemma DirectionStart(d: string)
    requires Direction(d)
    ensures |d| >= 3 && !Text.IsSpace(d[0])
  {
    assert "to "[0] == 't' && "from "[0] == 'f' && "fwmark "[0] == 'f';
  }

  /** A direction with an operand is trimmed text. */
  lemma DirectedTrimmed(s: string, d: string)
    requires Direction(d) && HasPrefix(s, d) && Operand(s[|d|..])
    ensures Text.Trim(s) == s && s == d + s[|d|..]
  {
    DirectionStart(d);
    assert s[0] == d[0] && s[|s| - 1] == s[|d|..][|s| - |d| - 1];
    Text.TrimTrims(s);
  }

  /** Cutting a direction off and putting it back restores a selector exactly when it had an operand. */
  lemma DirectionCut(selector: string, d: string)
    requires Direction(d) && HasPrefix(Text.Trim(selector), d)
    ensures var x := Text.Trim(Text.Trim(selector)[|d|..]);
      && x != "" && Text.Trim(x) == x && |x| < |selector|
      && (d + x == selector <==> HasPrefix(selector, d) && Operand(selector[|d|..]))
  {
    var s := Text.Trim(selector);
    Text.TrimTrims(selector);
    Text.TrimShorter(selector);
    TrimmedPrefix(s);
    DirectionStart(d);
    CutOperand(s, |d|);
    OperandTrim(s[|d|..]);
    Text.TrimShorter(s[|d|..]);
    var x := Text.Trim(s[|d|..]);
    OperandTrim(x);
    if HasPrefix(selector, d) && Operand(selector[|d|..]) {
      DirectedTrimmed(selector, d);
    }
    if d + x == selector {
      assert selector[|d|..] == x;
    }
  }

  /** Canonical selectors are trimmed, so their direction is the one the rollback entry sees. */
  lemma CanonicalByDirection(s: string, d: string)
    requires Direction(d) && HasPrefix(Text.Trim(s), d)
    ensures CanonicalSelector(s)
      <==> HasPrefix(s, d) && Operand(s[|d|..]) && (d == "from " ==> !HasPrefix(s[5..], "from "))
  {
    PrefixesDiffer(Text.Trim(s));
    if HasPrefix(s, "to ") && Operand(s[3..]) { DirectedTrimmed(s, "to "); }
    if HasPrefix(s, "from ") && Operand(s[5..]) { DirectedTrimmed(s, "from "); }
    if HasPrefix(s, "fwmark ") && Operand(s[7..]) { DirectedTrimmed(s, "fwmark "); }
    Text.TrimTrims("");
  }

  lemma UndirectedNotCanonical(s: string)
    requires !Directed(Text.Trim(s))
    ensures CanonicalSelector(s) <==> s == ""
  {
    if HasPrefix(s, "to ") && Operand(s[3..]) { DirectedTrimmed(s, "to "); }
    if HasPrefix(s, "from ") && Operand(s[5..]) { DirectedTrimmed(s, "from "); }
    if HasPrefix(s, "fwmark ") && Operand(s[7..]) { DirectedTrimmed(s, "fwmark "); }
  }

  /** The rollback entry prints the selector it was made from exactly for canonical selectors. */
  lemma SelectorRoundTrip(r: PolicyRule)
    ensures RollbackSelector(RollbackOf(r)) == r.selector <==> CanonicalSelector(r.selector)
  {
    var s := Text.Trim(r.selector);
    PrefixesDiffer(s);
    Text.TrimTrims("");
    if HasPrefix(s, "to ") {
      DirectionCut(r.selector, "to ");
      CanonicalByDirection(r.selector, "to ");
    } else if HasPrefix(s, "from ") {
      DirectionCut(r.selector, "from ");
      CanonicalByDirection(r.selector, "from ");
    } else if HasPrefix(s, "fwmark ") {
      DirectionCut(r.selector, "fwmark ");
      CanonicalByDirection(r.selector, "fwmark ");
    } else {
      UndirectedRoundTrip(r);
    }
  }

  /** Trimming never cuts a direction off. */
  lemma FromNotTrimmedAway(s: string)
    ensures Text.Trim(s) != "" ==> "from " + Text.Trim(s) != s
  {
    var x := Text.Trim(s);
    Text.TrimTrims(s);
    if x != "" {
      var f := "from " + x;
      assert f[5..] == x;
      DirectedTrimmed(f, "from ");
      assert |f| > |x|;
    }
  }

  lemma UndirectedRoundTrip(r: PolicyRule)
    requires !Directed(Text.Trim(r.selector))
    ensures RollbackSelector(RollbackOf(r)) == r.selector <==> CanonicalSelector(r.selector)
  {
    var s := Text.Trim(r.selector);
    Text.TrimTrims(r.selector);
    Text.TrimTrims("");
    Text.TrimShorter(r.selector);
    UndirectedNotCanonical(r.selector);
    FromNotTrimmedAway(r.selector);
  }

  /** Exactly then the rollback entry's target is the applied step's target. */
  lemma RollbackTargetMatches(r: PolicyRule)
    ensures RollbackTarget(RollbackOf(r)) == PolicyTarget(r) <==> CanonicalSelector(r.selector)
    ensures RollbackOf(r).priority == r.priority && RollbackOf(r).table == r.table
  {
    SelectorRoundTrip(r);
    var prefix, suffix := "priority " + Text.PrintInt(r.priority) + " ", " lookup " + r.table;
    MiddleMatters(prefix, RollbackSelector(RollbackOf(r)), r.selector, suffix);
    assert RollbackTarget(RollbackOf(r)) == prefix + RollbackSelector(RollbackOf(r)) + suffix;
    assert PolicyTarget(r) == prefix + r.selector + suffix;
  }

  lemma MiddleMatters(prefix: string, a: string, b: string, suffix: string)
    ensures prefix + a + suffix == prefix + b + suffix <==> a == b
  {
    if prefix + a + suffix == prefix + b + suffix {
      assert |a| == |b|;
      assert (prefix + a + suffix)[|prefix|..|prefix| + |a|] == a;
      assert (prefix + b + suffix)[|prefix|..|prefix| + |a|] == b;
    }
  }

  // ---------------------------------------------------------------- firewall rules

  datatype FirewallRule = FirewallRule(
    chain: string, expr: string, verdict: string, ownership: string, rollbackKey: string)

  const OWNERSHIP_PREFIX := "podlaz:firewall:"

  /** One element of firewallRuleStrings. */
  function FirewallText(r: FirewallRule): string {
    Text.Trim(r.expr + " " + r.verdict + " owner " + r.ownership)
  }

  predicate Verdict(v: string) {
    v == "accept" || v == "reject" || v == "drop"
  }

  function RollbackKey(family: string, table: string, chain: string, ownership: string): string
    requires HasPrefix(ownership, OWNERSHIP_PREFIX)
  {
    family + "/" + table + "/" + chain + "/" + ownership[|OWNERSHIP_PREFIX|..]
  }

  /** parsePersistedTunFirewallRule. */
  function ParseFirewall(family: string, table: string, chain: string, raw: string): Option<FirewallRule> {
    var fields := Text.Fields(raw);
    if |fields| < 4 || fields[|fields| - 2] != "owner" then None
    else
      var ownership, verdict := fields[|fields| - 1], fields[|fields| - 3];
      if !HasPrefix(ownership, OWNERSHIP_PREFIX) || ownership == OWNERSHIP_PREFIX || !Verdict(verdict) then None
      else Some(FirewallRule(chain, Text.Words(fields[..|fields| - 3]), verdict, ownership,
                             RollbackKey(family, table, chain, ownership)))
  }

  lemma FirewallWords(words: seq<string>, verdict: string, ownership: string)
    requires words != []
    ensures Text.Words(words + [verdict, "owner", ownership])
      == Text.Words(words) + " " + verdict + " owner " + ownership
  {
    TwoWords("owner", ownership);
    assert [verdict] + ["owner", ownership] == [verdict, "owner", ownership];
    Text.WordsAppend([verdict], ["owner", ownership]);
    Text.WordsAppend(words, [verdict, "owner", ownership]);
    assert " " + "owner" + " " == " owner ";
  }

  /** A rule with words for verdict and owner and single-spaced expression text. */
  predicate FirewallPrintable(r: FirewallRule) {
    Text.Normal(r.expr) && r.expr != "" && Text.IsWord(r.verdict) && Text.IsWord(r.ownership)
  }

  lemma FirewallSplits(r: FirewallRule)
    requires FirewallPrintable(r)
    ensures Text.Fields(FirewallText(r)) == Text.Fields(r.expr) + [r.verdict, "owner", r.ownership]
    ensures Text.Fields(r.expr) != []
  {
    var words := Text.Fields(r.expr);
    Text.FieldsAreWords(r.expr);
    FirewallWords(words, r.verdict, r.ownership);
    var raw := r.expr + " " + r.verdict + " owner " + r.ownership;
    assert raw == Text.Words(words + [r.verdict, "owner", r.ownership]);
    assert Text.IsWord("owner");
    Text.FieldsOfWords(words + [r.verdict, "owner", r.ownership]);
    FirstIsText(r.expr);
    assert raw[0] == r.expr[0] && raw[|raw| - 1] == r.ownership[|r.ownership| - 1];
    Text.TrimTrims(raw);
  }

  /** Single-spaced text starts with a word. */
  lemma FirstIsText(s: string)
    requires Text.Normal(s) && s != ""
    ensures !Text.IsSpace(s[0])
  {
    Text.FieldsAreWords(s);
    var words := Text.Fields(s);
    assert Text.Words(words)[0] == words[0][0];
  }

  /** The ownership of a firewall rule: the prefix and a key of its own. */
  predicate OwnedAs(ownership: string, owner: string) {
    owner != "" && ownership == "podlaz:firewall:" + owner
  }

  lemma OwnershipReads(ownership: string)
    ensures HasPrefix(ownership, OWNERSHIP_PREFIX) && ownership != OWNERSHIP_PREFIX
      <==> exists owner :: OwnedAs(ownership, owner)
    ensures forall owner :: OwnedAs(ownership, owner) ==> owner == ownership[16..]
  {
    if HasPrefix(ownership, OWNERSHIP_PREFIX) && ownership != OWNERSHIP_PREFIX {
      assert ownership == OWNERSHIP_PREFIX + ownership[16..];
      assert OwnedAs(ownership, ownership[16..]);
    }
  }

  /**
   A printable firewall rule is read back exactly when its verdict is one of the three and its
   ownership has the prefix and a key; its rollback key is family, table, chain and that key.
   */
  lemma FirewallInverts(family: string, table: string, r: FirewallRule)
    requires FirewallPrintable(r)
    ensures ParseFirewall(family, table, r.chain, FirewallText(r)).Some? <==>
      r.verdict in ["accept", "reject", "drop"] && exists owner :: OwnedAs(r.ownership, owner)
    ensures forall owner :: OwnedAs(r.ownership, owner) && r.verdict in ["accept", "reject", "drop"] ==>
      ParseFirewall(family, table, r.chain, FirewallText(r))
      == Some(r.(rollbackKey := family + "/" + table + "/" + r.chain + "/" + owner))
  {
    FirewallSplits(r);
    OwnershipReads(r.ownership);
    var fields := Text.Fields(FirewallText(r));
    assert fields[..|fields| - 3] == Text.Fields(r.expr);
  }
}
