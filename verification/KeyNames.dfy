/** Keychain entry names: what each entry is called, and that no two entries share a name. */
module KeyNames {
  import opened Common
  import Decimal

  const SERVICE_TESTNET: string := "xyz.oppen.testnet"
  const SERVICE_MAINNET: string := "xyz.oppen.mainnet"
  const PREFIX_AGENT_KEY: string := "agent-key"
  const PREFIX_AGENT_RECORD: string := "agent-record"
  const PREFIX_AGENT_ADDRESS: string := "agent-address"
  const ENTRY_GUARDRAIL_HMAC: string := "guardrail-hmac"
  const MAX_AGENT_ID_BYTES: nat := 64
  const MAX_GENERATION: nat := 1_024

  datatype Network = Testnet | Mainnet

  datatype EntryName = EntryName(service: string, account: string)

  /** What an entry holds, before it is given a name. */
  datatype Slot =
    | KeySlot(agent: string, generation: nat)
    | RecordSlot(agent: string)
    | MarkSlot(address: string)
    | HmacSlot

  function ServiceOf(n: Network): string {
    match n case Testnet => SERVICE_TESTNET case Mainnet => SERVICE_MAINNET
  }

  predicate IdChar(c: char) {
    'a' <= c <= 'z' || 'A' <= c <= 'Z' || '0' <= c <= '9' || c == '-' || c == '_' || c == '.'
  }

  /** `None` when the id may appear in an entry name; otherwise why not. */
  function AgentIdProblem(id: string): Option<string> {
    if id == [] then Some("empty")
    else if |id| > MAX_AGENT_ID_BYTES then Some("longer than 64 bytes")
    else if exists i :: 0 <= i < |id| && !IdChar(id[i]) then Some("characters outside [A-Za-z0-9._-]")
    else None
  }

  predicate Checked(id: string) {
    AgentIdProblem(id).None?
  }

  predicate Named(slot: Slot) {
    match slot
    case KeySlot(a, _) => Checked(a)
    case RecordSlot(a) => Checked(a)
    case MarkSlot(_) => true
    case HmacSlot => true
  }

  function Account(slot: Slot): string {
    match slot
    case KeySlot(a, g) => PREFIX_AGENT_KEY + "/" + a + "/" + Decimal.Print(g)
    case RecordSlot(a) => PREFIX_AGENT_RECORD + "/" + a
    case MarkSlot(x) => PREFIX_AGENT_ADDRESS + "/" + x
    case HmacSlot => ENTRY_GUARDRAIL_HMAC
  }

  function Render(n: Network, slot: Slot): EntryName {
    EntryName(ServiceOf(n), Account(slot))
  }

  /** An id is usable exactly when it has 1 to 64 characters, all of `A-Z a-z 0-9 - _ .`. */
  lemma CheckedExact(id: string)
    ensures Checked(id) <==>
              && 1 <= |id| <= 64
              && forall i :: 0 <= i < |id| ==>
                   || 'a' <= id[i] <= 'z' || 'A' <= id[i] <= 'Z' || '0' <= id[i] <= '9'
                   || id[i] in {'-', '_', '.'}
    ensures id == [] ==> AgentIdProblem(id) == Some("empty")
    ensures |id| > 64 ==> AgentIdProblem(id) == Some("longer than 64 bytes")
  {
  }

  /** The names are frozen: changing one orphans what is stored under it. */
  lemma EntryNamesAreStable(agent: string, address: string)
    ensures Account(KeySlot(agent, 3)) == "agent-key/" + agent + "/3"
    ensures Account(RecordSlot(agent)) == "agent-record/" + agent
    ensures Account(MarkSlot(address)) == "agent-address/" + address
    ensures Account(HmacSlot) == "guardrail-hmac"
    ensures Render(Testnet, HmacSlot).service == "xyz.oppen.testnet"
    ensures Render(Mainnet, HmacSlot).service == "xyz.oppen.mainnet"
  {
    assert Decimal.Print(3) == "3";
    assert PREFIX_AGENT_KEY + "/" == "agent-key/";
  }

  lemma SplitAtSeparator(x: string, y: string, x': string, y': string)
    requires '/' !in x && '/' !in x'
    requires x + "/" + y == x' + "/" + y'
    ensures x == x' && y == y'
  {
    var s, s' := x + "/" + y, x' + "/" + y';
    assert s[|x|] == '/' && s'[|x'|] == '/';
    assert x == s[..|x|] && x' == s'[..|x'|];
    assert y == s[|x| + 1..] && y' == s'[|x'| + 1..];
  }

  lemma CheckedHasNoSeparator(id: string)
    requires Checked(id)
    ensures '/' !in id
  {
    assert forall i :: 0 <= i < |id| ==> IdChar(id[i]);
  }

  function Kind(slot: Slot): nat {
    match slot case KeySlot(_, _) => 0 case RecordSlot(_) => 1 case MarkSlot(_) => 2 case HmacSlot => 3
  }

  lemma KindShows(slot: Slot)
    ensures |Account(slot)| > 6
    ensures Account(slot)[0] == (if Kind(slot) == 3 then 'g' else 'a')
    ensures Kind(slot) == 0 ==> Account(slot)[6] == 'k'
    ensures Kind(slot) == 1 ==> Account(slot)[6] == 'r'
    ensures Kind(slot) == 2 ==> Account(slot)[6] == 'a'
  {
  }

  /** Printed names are injective over network, kind, checked id, decimal generation and
      address: one agent's entry is never another's, on either network. */
  lemma NamesAreInjective(n: Network, s: Slot, n': Network, s': Slot)
    requires Named(s) && Named(s') && Render(n, s) == Render(n', s')
    ensures n == n' && s == s'
  {
    hide Checked;
    assert n == n' by {
      assert SERVICE_TESTNET[10] == 't' && SERVICE_MAINNET[10] == 'm';
    }
    KindShows(s);
    KindShows(s');
    assert Kind(s) == Kind(s');
    match s
    case KeySlot(a, g) =>
      var a', g' := s'.agent, s'.generation;
      CheckedHasNoSeparator(a);
      CheckedHasNoSeparator(a');
      var p := PREFIX_AGENT_KEY + "/";
      assert Account(s) == p + (a + "/" + Decimal.Print(g));
      assert Account(s') == p + (a' + "/" + Decimal.Print(g'));
      SamePrefix(p, a + "/" + Decimal.Print(g), a' + "/" + Decimal.Print(g'));
      SplitAtSeparator(a, Decimal.Print(g), a', Decimal.Print(g'));
      Decimal.PrintInjective(g, g');
    case RecordSlot(a) =>
      SamePrefix(PREFIX_AGENT_RECORD + "/", a, s'.agent);
    case MarkSlot(x) =>
      SamePrefix(PREFIX_AGENT_ADDRESS + "/", x, s'.address);
    case HmacSlot =>
  }

  lemma SamePrefix(p: string, x: string, y: string)
    requires p + x == p + y
    ensures x == y
  {
    assert x == (p + x)[|p|..] && y == (p + y)[|p|..];
  }
}
