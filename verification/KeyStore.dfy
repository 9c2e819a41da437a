/** The agent-wallet store: create, rotate, load and delete over a bare key/value store.
    `Plan*` say which entries an operation writes or removes, in order; the class performs
    them one backend call at a time, any of which may fail. */
module KeyStore {
  import opened Common
  import opened KeyNames

  datatype AgentWallet = AgentWallet(generation: nat, address: string, approvedAt: nat, validUntil: nat)

  /** A stored entry, decoded. `Other` is anything that does not decode as what it should be. */
  datatype Value =
    | Secret(hex: string)
    | Mark(generation: nat)
    | Record(wallet: AgentWallet)
    | Other(text: string)

  datatype KeyError =
    | InvalidAgentId(id: string, reason: string)
    | AlreadyExists(agent: string)
    | Missing(entry: string)
    | InvalidKey
    | AddressReused(address: string)
    | RotationLimit(generation: nat)
    | AddressMismatch(record: string, derived: string)
    | Encoding
    | Backend

  type Store = map<Slot, Value>

  /** How a private key text becomes an address; `None` when it is not a key. */
  type Derive = string -> Option<string>

  datatype Action = Put(slot: Slot, value: Value) | Remove(slot: Slot)

  function Apply(m: Store, a: Action): Store {
    match a
    case Put(s, v) => m[s := v]
    case Remove(s) => m - {s}
  }

  function Perform(m: Store, todo: seq<Action>): Store {
    if todo == [] then m else Apply(Perform(m, todo[..|todo| - 1]), todo[|todo| - 1])
  }

  // ---- reading -------------------------------------------------------------------------------

  function IdError(agent: string): KeyError
    requires !Checked(agent)
  {
    InvalidAgentId(agent, AgentIdProblem(agent).value)
  }

  /** The agent's record, refused when it names a generation no write can reach. */
  function ReadWallet(m: Store, agent: string): Result<Option<AgentWallet>, KeyError> {
    if !Checked(agent) then Err(IdError(agent))
    else if RecordSlot(agent) !in m then Ok(None)
    else match m[RecordSlot(agent)]
      case Record(w) => if w.generation > MAX_GENERATION then Err(RotationLimit(w.generation)) else Ok(Some(w))
      case _ => Err(Encoding)
  }

  function RequireWallet(m: Store, agent: string): Result<AgentWallet, KeyError> {
    match ReadWallet(m, agent)
    case Err(e) => Err(e)
    case Ok(None) => Err(Missing(Account(RecordSlot(agent))))
    case Ok(Some(w)) => Ok(w)
  }

  predicate IsHex(c: char) {
    '0' <= c <= '9' || 'a' <= c <= 'f' || 'A' <= c <= 'F'
  }

  function Lower(c: char): char {
    if 'A' <= c <= 'F' then (c as int + 32) as char else c
  }

  function Body(text: string): string {
    if |text| >= 2 && text[..2] == "0x" then text[2..] else text
  }

  /** Bare lowercase 64-digit hex, or `None`. */
  function NormalizeKey(text: string): Option<string> {
    var body := Body(text);
    if |body| != 64 || (exists i :: 0 <= i < |body| && !IsHex(body[i])) then None
    else Some(seq(64, i requires 0 <= i < 64 => Lower(body[i])))
  }

  /** However a key is spelled, it is stored once: normalising is idempotent and forgets the
      `0x` prefix and the case of the digits. */
  lemma NormalizeIsCanonical(text: string)
    requires NormalizeKey(text).Some?
    ensures var key := NormalizeKey(text).value;
            && |key| == 64
            && (forall i :: 0 <= i < 64 ==> IsHex(key[i]) && !('A' <= key[i] <= 'F'))
            && NormalizeKey(key) == Some(key) && NormalizeKey("0x" + key) == Some(key)
  {
    var key := NormalizeKey(text).value;
    assert key[1] != 'x';
    assert Body(key) == key;
    assert Body("0x" + key) == key;
    assert forall i :: 0 <= i < 64 ==> Lower(key[i]) == key[i];
    assert NormalizeKey(key).value == key && NormalizeKey("0x" + key).value == key;
  }

  /** The value of a hex digit in either case. */
  function HexDigit(c: char): nat
    requires IsHex(c)
  {
    if c <= '9' then c as nat - '0' as nat
    else if 'a' <= c then c as nat - 'a' as nat + 10
    else c as nat - 'A' as nat + 10
  }

  /** A key is accepted exactly when it is 64 hex digits, with or without `0x` in front, and is
      stored as the same digits. */
  lemma NormalizeSpellsTheSame(text: string)
    ensures var digits := if |text| >= 2 && text[0] == '0' && text[1] == 'x' then text[2..] else text;
            && (NormalizeKey(text).Some? <==> |digits| == 64 && forall i :: 0 <= i < 64 ==> IsHex(digits[i]))
            && (NormalizeKey(text).Some? ==>
                  var key := NormalizeKey(text).value;
                  && |key| == 64
                  && forall i :: 0 <= i < 64 ==> IsHex(key[i]) && HexDigit(key[i]) == HexDigit(digits[i]))
  {
    assert |text| >= 2 ==> (text[..2] == "0x" <==> text[0] == '0' && text[1] == 'x');
  }

  /** The address a key may be installed under, or why it may not be. */
  function Vet(m: Store, derive: Derive, keyText: string): Result<(string, string), KeyError> {
    match NormalizeKey(keyText)
    case None => Err(InvalidKey)
    case Some(key) =>
      match derive(key)
      case None => Err(InvalidKey)
      case Some(address) =>
        if MarkSlot(address) in m then Err(AddressReused(address)) else Ok((key, address))
  }

  // ---- planning --------------------------------------------------------------------------------

  datatype Install = Install(agent: string, key: string, wallet: AgentWallet)

  /** Address mark, then key, then record: each prefix fails in the safe direction. */
  function Actions(i: Install): seq<Action> {
    [ Put(MarkSlot(i.wallet.address), Mark(i.wallet.generation)),
      Put(KeySlot(i.agent, i.wallet.generation), Secret(i.key)),
      Put(RecordSlot(i.agent), Record(i.wallet)) ]
  }

  function PlanCreate(m: Store, derive: Derive, agent: string, keyText: string, validUntil: nat, now: nat)
    : Result<Install, KeyError>
  {
    match ReadWallet(m, agent)
    case Err(e) => Err(e)
    case Ok(Some(_)) => Err(AlreadyExists(agent))
    case Ok(None) =>
      match Vet(m, derive, keyText)
      case Err(e) => Err(e)
      case Ok((key, address)) => Ok(Install(agent, key, AgentWallet(0, address, now, validUntil)))
  }

  function PlanRotate(m: Store, derive: Derive, agent: string, keyText: string, validUntil: nat, now: nat)
    : Result<Install, KeyError>
  {
    match RequireWallet(m, agent)
    case Err(e) => Err(e)
    case Ok(current) =>
      match Vet(m, derive, keyText)
      case Err(e) => Err(e)
      case Ok((key, address)) =>
        var generation := current.generation + 1;
        if generation > MAX_GENERATION then Err(RotationLimit(generation))
        else Ok(Install(agent, key, AgentWallet(generation, address, now, validUntil)))
  }

  /** The record first, then every generation that could exist, whatever the record says. */
  function Sweep(agent: string): (r: seq<Action>)
    ensures |r| == MAX_GENERATION + 2
  {
    [Remove(RecordSlot(agent))] + seq(MAX_GENERATION + 1, g requires 0 <= g <= MAX_GENERATION => Remove(KeySlot(agent, g)))
  }

  /** Reads a key for a record read earlier, possibly from a store that has since changed. */
  function LoadKey(m: Store, derive: Derive, agent: string, w: AgentWallet): Result<string, KeyError> {
    var slot := KeySlot(agent, w.generation);
    if slot !in m then Err(Missing(Account(slot)))
    else match m[slot]
      case Secret(hex) =>
        (match derive(hex)
         case None => Err(InvalidKey)
         case Some(derived) =>
           if derived != w.address then Err(AddressMismatch(w.address, derived)) else Ok(hex))
      case _ => Err(InvalidKey)
  }

  // ---- what each answer means --------------------------------------------------------------------

  /** The record of `agent` as stored: a readable one of a generation that can have been written. */
  ghost predicate Stored(m: Store, agent: string, w: AgentWallet) {
    RecordSlot(agent) in m && m[RecordSlot(agent)] == Record(w) && w.generation <= 1_024
  }

  /** A record is returned exactly when a readable one is stored under a valid id; absence,
      corruption, an impossible generation and a bad id are told apart. */
  lemma ReadWalletExact(m: Store, agent: string)
    ensures var r := ReadWallet(m, agent); var slot := RecordSlot(agent);
            && (!Checked(agent) <==> r.Err? && r.error.InvalidAgentId?)
            && (r == Ok(None) <==> Checked(agent) && slot !in m)
            && (forall w :: r == Ok(Some(w)) <==> Checked(agent) && Stored(m, agent, w))
            && (r == Err(Encoding) <==> Checked(agent) && slot in m && !m[slot].Record?)
            && (forall g :: r == Err(RotationLimit(g)) <==>
                  Checked(agent) && slot in m && m[slot].Record? && m[slot].wallet.generation == g > 1_024)
  {
    hide Checked;
  }

  /** A key is loaded for a record exactly when the generation it names holds that key and the key
      derives the address it names; every other case has its own answer. */
  lemma LoadKeyExact(m: Store, derive: Derive, agent: string, w: AgentWallet)
    ensures var r := LoadKey(m, derive, agent, w); var slot := KeySlot(agent, w.generation);
            && (forall key :: r == Ok(key) <==>
                  slot in m && m[slot] == Secret(key) && derive(key) == Some(w.address))
            && (slot !in m <==> r.Err? && r.error.Missing?)
            && (forall a, d :: r == Err(AddressMismatch(a, d)) <==>
                  && slot in m && m[slot].Secret? && derive(m[slot].hex) == Some(d)
                  && a == w.address && a != d)
            && (r == Err(InvalidKey) <==> slot in m && (m[slot].Secret? ==> derive(m[slot].hex).None?))
  {
  }

  /** A key may be installed exactly when it is a key whose address was never marked. */
  lemma VetExact(m: Store, derive: Derive, keyText: string)
    ensures var r := Vet(m, derive, keyText);
            && (forall key, address :: r == Ok((key, address)) <==>
                  && NormalizeKey(keyText) == Some(key) && derive(key) == Some(address)
                  && MarkSlot(address) !in m)
            && (forall address :: r == Err(AddressReused(address)) <==>
                  && NormalizeKey(keyText).Some? && derive(NormalizeKey(keyText).value) == Some(address)
                  && MarkSlot(address) in m)
            && (r == Err(InvalidKey) <==>
                  NormalizeKey(keyText).None? || derive(NormalizeKey(keyText).value).None?)
  {
    hide NormalizeKey;
  }

  /** The store once `w` has been installed for `agent` with `key`. */
  function Installed(m: Store, agent: string, key: string, w: AgentWallet): Store {
    m[MarkSlot(w.address) := Mark(w.generation)]
     [KeySlot(agent, w.generation) := Secret(key)]
     [RecordSlot(agent) := Record(w)]
  }

  lemma ActionsInstall(m: Store, i: Install)
    ensures Perform(m, Actions(i)) == Installed(m, i.agent, i.key, i.wallet)
  {
    PerformSteps(m, Actions(i));
    assert Actions(i)[..3] == Actions(i);
  }

  /** What has been installed can be loaded, and gives back the key that was installed. */
  lemma InstalledLoads(m: Store, derive: Derive, agent: string, key: string, w: AgentWallet)
    requires Checked(agent) && w.generation <= 1_024 && derive(key) == Some(w.address)
    ensures var r := Installed(m, agent, key, w);
            && ReadWallet(r, agent) == Ok(Some(w)) && LoadKey(r, derive, agent, w) == Ok(key)
            && MarkSlot(w.address) in r
            && forall s :: s != MarkSlot(w.address) && s != KeySlot(agent, w.generation) && s != RecordSlot(agent) ==>
                 (s in r <==> s in m) && (s in m ==> r[s] == m[s])
  {
    hide Checked;
  }

  /** Creating plans generation 0 of exactly the wallet asked for, and plans it exactly when the
      id is valid and has no record and the key may be installed. */
  lemma PlanCreateExact(m: Store, derive: Derive, agent: string, keyText: string, validUntil: nat, now: nat)
    ensures var r := PlanCreate(m, derive, agent, keyText, validUntil, now); var vet := Vet(m, derive, keyText);
            && (r.Ok? <==> Checked(agent) && RecordSlot(agent) !in m && vet.Ok?)
            && (r.Ok? ==>
                  r.value == Install(agent, vet.value.0, AgentWallet(0, vet.value.1, now, validUntil)))
            && (r == Err(AlreadyExists(agent)) <==> Checked(agent) && exists w :: Stored(m, agent, w))
            && (r.Err? && Checked(agent) && RecordSlot(agent) !in m ==> vet.Err? && r.error == vet.error)
            && (ReadWallet(m, agent).Err? ==> r == Err(ReadWallet(m, agent).error))
  {
    hide Checked;
    hide NormalizeKey;
    ReadWalletExact(m, agent);
    var existing := ReadWallet(m, agent);
    if existing.Ok? && existing.value.Some? {
      assert Stored(m, agent, existing.value.value);
    }
  }

  /** Rotating plans exactly the next generation, and plans it exactly when a record below the
      limit is stored and the key may be installed. */
  lemma PlanRotateExact(m: Store, derive: Derive, agent: string, keyText: string, validUntil: nat, now: nat, current: AgentWallet)
    ensures var r := PlanRotate(m, derive, agent, keyText, validUntil, now); var vet := Vet(m, derive, keyText);
            && (Checked(agent) && RecordSlot(agent) !in m <==> r.Err? && r.error.Missing?)
            && (r.Ok? ==> Checked(agent) && exists w :: Stored(m, agent, w))
            && (ReadWallet(m, agent).Err? ==> r == Err(ReadWallet(m, agent).error))
            && (Checked(agent) && Stored(m, agent, current) ==>
                  && (r.Ok? <==> vet.Ok? && current.generation < 1_024)
                  && (r.Ok? ==>
                        && r.value.agent == agent && r.value.key == vet.value.0
                        && r.value.wallet == AgentWallet(current.generation + 1, vet.value.1, now, validUntil))
                  && (vet.Err? ==> r == Err(vet.error))
                  && (r == Err(RotationLimit(1_025)) <==> vet.Ok? && current.generation == 1_024))
  {
    hide Checked;
    hide NormalizeKey;
    ReadWalletExact(m, agent);
    var existing := ReadWallet(m, agent);
    if existing.Ok? && existing.value.Some? {
      assert Stored(m, agent, existing.value.value);
    }
  }

  // ---- the component ---------------------------------------------------------------------------

  /** The named entries hold exactly the slots. */
  ghost predicate Represents(network: Network, entries: map<EntryName, Value>, slots: Store) {
    && (forall s :: s in slots ==> Named(s))
    && (forall s :: Named(s) ==>
          && (Render(network, s) in entries <==> s in slots)
          && (s in slots ==> entries[Render(network, s)] == slots[s]))
  }

  lemma WriteRepresents(network: Network, entries: map<EntryName, Value>, slots: Store, s: Slot, v: Value)
    requires Represents(network, entries, slots) && Named(s)
    ensures Represents(network, entries[Render(network, s) := v], slots[s := v])
  {
    hide Render;
    hide Named;
    forall s' | Named(s') && Render(network, s') == Render(network, s) ensures s' == s {
      NamesAreInjective(network, s, network, s');
    }
  }

  lemma RemoveRepresents(network: Network, entries: map<EntryName, Value>, slots: Store, s: Slot)
    requires Represents(network, entries, slots) && Named(s)
    ensures Represents(network, entries - {Render(network, s)}, slots - {s})
  {
    hide Render;
    hide Named;
    forall s' | Named(s') && Render(network, s') == Render(network, s) ensures s' == s {
      NamesAreInjective(network, s, network, s');
    }
  }

  function Min(a: nat, b: nat): nat {
    if a < b then a else b
  }

  class WalletStore {
    const network: Network
    const derive: Derive
    var entries: map<EntryName, Value>
    /** How many more backend mutations succeed before the store becomes unreachable. */
    var budget: nat
    ghost var slots: Store

    ghost predicate Valid()
      reads this
    {
      Represents(network, entries, slots)
    }

    constructor (network: Network, derive: Derive, budget: nat)
      ensures Valid() && slots == map[] && this.budget == budget
      ensures this.network == network && this.derive == derive
    {
      this.network, this.derive, this.budget := network, derive, budget;
      entries, slots := map[], map[];
    }

    method Write(s: Slot, v: Value) returns (ok: bool)
      requires Valid() && Named(s)
      modifies this
      ensures Valid() && ok == (old(budget) > 0)
      ensures slots == (if ok then Apply(old(slots), Put(s, v)) else old(slots))
      ensures budget == (if ok then old(budget) - 1 else 0)
    {
      ok := budget > 0;
      if ok {
        WriteRepresents(network, entries, slots, s, v);
        entries, slots, budget := entries[Render(network, s) := v], slots[s := v], budget - 1;
      }
    }

    method Delete(s: Slot) returns (ok: bool)
      requires Valid() && Named(s)
      modifies this
      ensures Valid() && ok == (old(budget) > 0)
      ensures slots == (if ok then Apply(old(slots), Remove(s)) else old(slots))
      ensures budget == (if ok then old(budget) - 1 else 0)
    {
      ok := budget > 0;
      if ok {
        RemoveRepresents(network, entries, slots, s);
        entries, slots, budget := entries - {Render(network, s)}, slots - {s}, budget - 1;
      }
    }

    method Read(s: Slot) returns (v: Option<Value>)
      requires Valid() && Named(s)
      ensures v == if s in slots then Some(slots[s]) else None
    {
      hide Render;
      var name := Render(network, s);
      v := if name in entries then Some(entries[name]) else None;
    }

    method AgentWalletOf(agent: string) returns (r: Result<Option<AgentWallet>, KeyError>)
      requires Valid()
      ensures r == ReadWallet(slots, agent)
    {
      if !Checked(agent) {
        return Err(IdError(agent));
      }
      var stored := Read(RecordSlot(agent));
      if stored.None? {
        return Ok(None);
      }
      if !stored.value.Record? {
        return Err(Encoding);
      }
      var w := stored.value.wallet;
      if w.generation > MAX_GENERATION {
        return Err(RotationLimit(w.generation));
      }
      r := Ok(Some(w));
    }

    method VetKey(keyText: string) returns (r: Result<(string, string), KeyError>)
      requires Valid()
      ensures r == Vet(slots, derive, keyText)
    {
      var normalized := NormalizeKey(keyText);
      if normalized.None? {
        return Err(InvalidKey);
      }
      var address := derive(normalized.value);
      if address.None? {
        return Err(InvalidKey);
      }
      var used := Read(MarkSlot(address.value));
      if used.Some? {
        return Err(AddressReused(address.value));
      }
      r := Ok((normalized.value, address.value));
    }

    method WriteWallet(i: Install) returns (ok: bool)
      requires Valid() && Checked(i.agent)
      modifies this
      ensures Valid() && ok == (old(budget) >= 3)
      ensures slots == Perform(old(slots), Actions(i)[..Min(old(budget), 3)])
      ensures budget == old(budget) - Min(old(budget), 3)
    {
      ghost var m := slots;
      var todo := Actions(i);
      PerformSteps(m, todo);
      ok := Write(MarkSlot(i.wallet.address), Mark(i.wallet.generation));
      if !ok {
        return;
      }
      ok := Write(KeySlot(i.agent, i.wallet.generation), Secret(i.key));
      if !ok {
        return;
      }
      ok := Write(RecordSlot(i.agent), Record(i.wallet));
    }

    method CreateAgentKey(agent: string, keyText: string, validUntil: nat, now: nat)
      returns (r: Result<AgentWallet, KeyError>)
      requires Valid()
      modifies this
      ensures Valid()
      ensures var plan := PlanCreate(old(slots), derive, agent, keyText, validUntil, now);
              match plan
              case Err(e) => r == Err(e) && slots == old(slots)
              case Ok(i) =>
                && slots == Perform(old(slots), Actions(i)[..Min(old(budget), 3)])
                && r == (if old(budget) >= 3 then Ok(i.wallet) else Err(Backend))
      ensures r.Ok? ==>
                && NormalizeKey(keyText).Some? && derive(NormalizeKey(keyText).value) == Some(r.value.address)
                && MarkSlot(r.value.address) !in old(slots)
                && r.value.approvedAt == now && r.value.validUntil == validUntil
                && slots == Installed(old(slots), agent, NormalizeKey(keyText).value, r.value)
      ensures r.Ok? ==> r.value.generation == 0 && RecordSlot(agent) !in old(slots)
    {
      var existing := AgentWalletOf(agent);
      if existing.Err? {
        return Err(existing.error);
      }
      if existing.value.Some? {
        return Err(AlreadyExists(agent));
      }
      var vetted := VetKey(keyText);
      if vetted.Err? {
        return Err(vetted.error);
      }
      var (key, address) := vetted.value;
      var wallet := AgentWallet(0, address, now, validUntil);
      ActionsInstall(slots, Install(agent, key, wallet));
      assert Actions(Install(agent, key, wallet))[..3] == Actions(Install(agent, key, wallet));
      var ok := WriteWallet(Install(agent, key, wallet));
      r := if ok then Ok(wallet) else Err(Backend);
    }

    method RotateAgentKey(agent: string, keyText: string, validUntil: nat, now: nat)
      returns (r: Result<AgentWallet, KeyError>)
      requires Valid()
      modifies this
      ensures Valid()
      ensures var plan := PlanRotate(old(slots), derive, agent, keyText, validUntil, now);
              match plan
              case Err(e) => r == Err(e) && slots == old(slots)
              case Ok(i) =>
                && slots == Perform(old(slots), Actions(i)[..Min(old(budget), 3)])
                && r == (if old(budget) >= 3 then Ok(i.wallet) else Err(Backend))
      ensures r.Ok? ==>
                && NormalizeKey(keyText).Some? && derive(NormalizeKey(keyText).value) == Some(r.value.address)
                && MarkSlot(r.value.address) !in old(slots)
                && r.value.approvedAt == now && r.value.validUntil == validUntil
                && slots == Installed(old(slots), agent, NormalizeKey(keyText).value, r.value)
      ensures r.Ok? ==> r.value.generation > 0
                        && exists w :: Stored(old(slots), agent, w) && w.generation + 1 == r.value.generation
    {
      var existing := AgentWalletOf(agent);
      if existing.Err? {
        return Err(existing.error);
      }
      if existing.value.None? {
        return Err(Missing(Account(RecordSlot(agent))));
      }
      var current := existing.value.value;
      var vetted := VetKey(keyText);
      if vetted.Err? {
        return Err(vetted.error);
      }
      var (key, address) := vetted.value;
      var generation := current.generation + 1;
      if generation > MAX_GENERATION {
        return Err(RotationLimit(generation));
      }
      var wallet := AgentWallet(generation, address, now, validUntil);
      ActionsInstall(slots, Install(agent, key, wallet));
      assert Actions(Install(agent, key, wallet))[..3] == Actions(Install(agent, key, wallet));
      assert Stored(slots, agent, current);
      var ok := WriteWallet(Install(agent, key, wallet));
      r := if ok then Ok(wallet) else Err(Backend);
    }

    method LoadAgentKeyWithWallet(agent: string) returns (r: Result<(string, AgentWallet), KeyError>)
      requires Valid()
      ensures match RequireWallet(slots, agent)
              case Err(e) => r == Err(e)
              case Ok(w) =>
                match LoadKey(slots, derive, agent, w)
                case Err(e) => r == Err(e)
                case Ok(key) => r == Ok((key, w))
      ensures r.Ok? ==>
                var (key, w) := r.value;
                && Stored(slots, agent, w) && derive(key) == Some(w.address)
                && KeySlot(agent, w.generation) in slots && slots[KeySlot(agent, w.generation)] == Secret(key)
    {
      var existing := AgentWalletOf(agent);
      if existing.Err? {
        return Err(existing.error);
      }
      if existing.value.None? {
        return Err(Missing(Account(RecordSlot(agent))));
      }
      var w := existing.value.value;
      var slot := KeySlot(agent, w.generation);
      var stored := Read(slot);
      if stored.None? {
        return Err(Missing(Account(slot)));
      }
      if !stored.value.Secret? {
        return Err(InvalidKey);
      }
      var derived := derive(stored.value.hex);
      if derived.None? {
        return Err(InvalidKey);
      }
      if derived.value != w.address {
        return Err(AddressMismatch(w.address, derived.value));
      }
      r := Ok((stored.value.hex, w));
    }

    method DeleteAgent(agent: string) returns (r: Result<(), KeyError>)
      requires Valid()
      modifies this
      ensures Valid()
      ensures !Checked(agent) ==> r == Err(IdError(agent)) && slots == old(slots)
      ensures Checked(agent) ==>
                var n := |Sweep(agent)|;
                && slots == Perform(old(slots), Sweep(agent)[..Min(old(budget), n)])
                && r == (if old(budget) >= n then Ok(()) else Err(Backend))
    {
      hide Perform;
      hide Sweep;
      hide Checked;
      hide Represents;
      hide Apply;
      if !Checked(agent) {
        return Err(IdError(agent));
      }
      ghost var m, b0, todo := slots, budget, Sweep(agent);
      SweepLength(agent);
      PerformNothing(m);
      SweepStep(agent, 0);
      var ok := Delete(RecordSlot(agent));
      if !ok {
        return Err(Backend);
      }
      PerformSnoc(m, todo, 0);
      assert todo[..0] == [];
      var generation := 0;
      while generation <= MAX_GENERATION
        invariant 0 <= generation <= MAX_GENERATION + 1
        invariant Valid() && b0 >= generation + 1 && budget == b0 - generation - 1
        invariant slots == Perform(m, todo[..generation + 1])
      {
        ok := Delete(KeySlot(agent, generation));
        if !ok {
          return Err(Backend);
        }
        PerformSnoc(m, todo, generation + 1);
        SweepStep(agent, generation + 1);
        generation := generation + 1;
      }
      r := Ok(());
    }
  }

  lemma PerformSnoc(m: Store, todo: seq<Action>, n: nat)
    requires n < |todo|
    ensures Perform(m, todo[..n + 1]) == Apply(Perform(m, todo[..n]), todo[n])
  {
    assert todo[..n + 1][..n] == todo[..n];
  }

  lemma SweepStep(agent: string, k: nat)
    requires k < |Sweep(agent)|
    ensures Sweep(agent)[k] == if k == 0 then Remove(RecordSlot(agent)) else Remove(KeySlot(agent, k - 1))
  {
  }

  lemma SweepLength(agent: string)
    ensures |Sweep(agent)| == MAX_GENERATION + 2
  {
  }

  lemma PerformNothing(m: Store)
    ensures Perform(m, []) == m
  {
  }

  lemma PerformSteps(m: Store, todo: seq<Action>)
    requires |todo| == 3
    ensures Perform(m, todo[..0]) == m
    ensures Perform(m, todo[..1]) == Apply(m, todo[0])
    ensures Perform(m, todo[..2]) == Apply(Apply(m, todo[0]), todo[1])
    ensures Perform(m, todo[..3]) == Apply(Apply(Apply(m, todo[0]), todo[1]), todo[2])
  {
    PerformSnoc(m, todo, 0);
    PerformSnoc(m, todo, 1);
    PerformSnoc(m, todo, 2);
  }
}
