/**
 * The circuit registry: circuits by name, each with its compiled bytecode,
 * its verifying key (empty until generated), its ABI, its key id and its
 * cached verifying-key hash; beside it the verifying keys known only by id.
 * The process-wide cache behind a mutex becomes one owned `Catalog` object.
 */
module Catalog {
  import opened Wrappers
  import opened Bytes

  // ---------------------------------------------------------------- the ABI

  /** `AbiType`: the type of a circuit parameter. */
  datatype AbiType =
    | FieldKind
    | ArrayKind(length: nat, elem: AbiType)
    | IntegerKind(sign: string, width: nat)
    | BooleanKind
    | StructKind(fields: seq<AbiStructField>)

  datatype AbiStructField = AbiStructField(name: string, abiType: AbiType)

  /** `AbiParam`: a named parameter with its type and its visibility (`"private"` or `"public"`). */
  datatype AbiParam = AbiParam(name: string, abiType: AbiType, visibility: string)

  datatype AbiReturn = AbiReturn(abiType: AbiType, visibility: string)

  datatype Abi = Abi(parameters: seq<AbiParam>, returnType: Option<AbiReturn>)

  // ---------------------------------------------------------------- entries

  /** `CircuitEntry`, with the key id and the cached verifying-key hash the prover reads. */
  datatype CircuitEntry = CircuitEntry(
    name: string,
    acir: seq<uint8>,
    vk: seq<uint8>,
    abi: Abi,
    keyId: Bytes32,
    vkHash: Option<Bytes32>)

  /** A verifying key known only by its id (one produced by merging two proofs). */
  datatype VkEntry = VkEntry(bytes: seq<uint8>, hash: Option<Bytes32>)

  /** `EmbeddedCircuit`: a circuit shipped with the crate, its ABI still as JSON text. */
  datatype EmbeddedCircuit = EmbeddedCircuit(name: string, acir: seq<uint8>, vk: seq<uint8>, abiJson: string)

  type Entries = map<string, CircuitEntry>

  /** Every entry is registered under its own name, as `insert` keeps it. */
  predicate NamesMatch(m: Entries)
  {
    forall n :: n in m ==> m[n].name == n
  }

  /** The registry after `insert(e)`: `e` under its own name, every other name untouched. */
  function WithEntry(m: Entries, e: CircuitEntry): (r: Entries)
    ensures r.Keys == m.Keys + {e.name}
    ensures NamesMatch(m) ==> NamesMatch(r)
  {
    m[e.name := e]
  }

  /** What `get(name)` reads from the registry `m`. */
  function Lookup(m: Entries, name: string): Option<CircuitEntry>
  {
    if name in m then Some(m[name]) else None
  }

  /**
   * `get` after `insert(e)`: the name of `e` reads back `e`; any other name
   * reads what it read before, so an unregistered name still reads nothing.
   */
  lemma GetAfterInsert(m: Entries, e: CircuitEntry, name: string)
    ensures Lookup(WithEntry(m, e), name) == if name == e.name then Some(e) else Lookup(m, name)
    ensures name != e.name && name !in m ==> Lookup(WithEntry(m, e), name) == None
  {
  }

  /**
   * The registry after `update_vk(name, vk)`: the key is written only into
   * an existing entry whose key is still empty; otherwise nothing changes.
   */
  function WithVk(m: Entries, name: string, vk: seq<uint8>): (r: Entries)
    ensures r.Keys == m.Keys
    ensures forall n :: n in m && n != name ==> r[n] == m[n]
    ensures name in m && m[name].vk == [] ==> r[name] == m[name].(vk := vk)
    ensures !(name in m && m[name].vk == []) ==> r == m
  {
    if name in m && m[name].vk == [] then m[name := m[name].(vk := vk)] else m
  }

  /**
   * Once a non-empty key is written, `update_vk` of the same name is a
   * no-op, whatever key the second call brings.
   */
  lemma UpdateVkFillsOnce(m: Entries, name: string, vk: seq<uint8>, vk2: seq<uint8>)
    requires vk != []
    ensures WithVk(WithVk(m, name, vk), name, vk2) == WithVk(m, name, vk)
  {
    if name in m && m[name].vk == [] {
      assert WithVk(m, name, vk)[name].vk == vk;
    }
  }

  /**
   * The registry after the four-argument `update_vk(name, vk, hash, key_id)`
   * that the prover calls: a non-empty key, a given hash and a given key id
   * overwrite their fields; an empty key or an absent hash or id keeps what
   * was known. The catalog source shows only the two-argument form; this is
   * the four-argument form the prover calls at src/prover.rs:122 and 184,
   * with the field-by-field meaning those calls rely on.
   */
  function WithVkMeta(m: Entries, name: string, vk: seq<uint8>, hash: Option<Bytes32>, keyId: Option<Bytes32>)
    : (r: Entries)
    ensures r.Keys == m.Keys
    ensures forall n :: n in m && n != name ==> r[n] == m[n]
    ensures name in m ==> r[name].name == m[name].name && r[name].acir == m[name].acir && r[name].abi == m[name].abi
    ensures name in m ==> r[name].vk == (if vk != [] then vk else m[name].vk)
    ensures name in m ==> r[name].vkHash == (if hash.Some? then hash else m[name].vkHash)
    ensures name in m ==> r[name].keyId == (if keyId.Some? then keyId.value else m[name].keyId)
    ensures NamesMatch(m) ==> NamesMatch(r)
  {
    if name !in m then m
    else
      var e := m[name];
      m[name := e.(vk := if vk != [] then vk else e.vk,
                   vkHash := if hash.Some? then hash else e.vkHash,
                   keyId := if keyId.Some? then keyId.value else e.keyId)]
  }

  /** A known hash or a non-empty key is never lost by the four-argument update. */
  lemma VkMetaNeverForgets(m: Entries, name: string, vk: seq<uint8>, hash: Option<Bytes32>, keyId: Option<Bytes32>)
    requires name in m
    ensures m[name].vkHash.Some? ==> WithVkMeta(m, name, vk, hash, keyId)[name].vkHash.Some?
    ensures m[name].vk != [] ==> WithVkMeta(m, name, vk, hash, keyId)[name].vk != []
  {
  }

  // ---------------------------------------------------------------- init_embedded

  /** The entry `init_embedded` builds for an embedded circuit with its parsed ABI. */
  function EmbeddedEntry(c: EmbeddedCircuit, abi: Abi, compile: seq<uint8> -> Bytes32): CircuitEntry
  {
    CircuitEntry(c.name, c.acir, c.vk, abi, compile(c.acir), None)
  }

  /**
   * The registry and the result after `init_embedded` over `cs` from `m`:
   * each circuit is inserted in order, and the first ABI that does not parse
   * stops the loop with that circuit's error, keeping the earlier inserts.
   */
  function Loaded(m: Entries, cs: seq<EmbeddedCircuit>, parse: string -> Result<Abi>, compile: seq<uint8> -> Bytes32)
    : (Entries, Result<()>)
    decreases |cs|
  {
    if cs == [] then (m, Ok(()))
    else match parse(cs[0].abiJson)
      case Err(_) => (m, Err(AbiParse(cs[0].name)))
      case Ok(abi) => Loaded(WithEntry(m, EmbeddedEntry(cs[0], abi, compile)), cs[1..], parse, compile)
  }

  /** The names of the circuits in `cs`. */
  function Names(cs: seq<EmbeddedCircuit>): (ns: set<string>)
    ensures forall i :: 0 <= i < |cs| ==> cs[i].name in ns
    ensures forall n :: n in ns ==> exists i :: 0 <= i < |cs| && cs[i].name == n
  {
    set i | 0 <= i < |cs| :: cs[i].name
  }

  /** Every ABI in `cs` parses. */
  predicate AllParse(cs: seq<EmbeddedCircuit>, parse: string -> Result<Abi>)
  {
    forall i :: 0 <= i < |cs| ==> parse(cs[i].abiJson).Ok?
  }

  /** Dropping the first circuit shifts a parsing prefix and the circuit after it by one. */
  lemma ParsePrefixShift(cs: seq<EmbeddedCircuit>, parse: string -> Result<Abi>, j: nat)
    requires 0 < j < |cs| && AllParse(cs[..j], parse)
    ensures parse(cs[0].abiJson).Ok? && cs[..j][0] == cs[0]
    ensures cs[1..][..j - 1] == cs[..j][1..] && cs[1..][j - 1] == cs[j]
    ensures AllParse(cs[1..][..j - 1], parse)
  {
    assert cs[..j][0] == cs[0];
    var before := cs[1..][..j - 1];
    forall i | 0 <= i < |before| ensures parse(before[i].abiJson).Ok? {
      assert before[i] == cs[..j][i + 1];
    }
  }

  /**
   * `init_embedded` stops at the first ABI that does not parse: the result is
   * that circuit's error, exactly the circuits before it are added, and the
   * circuits after it are not.
   */
  lemma {:induction false} InitStopsAtFirstFailure(m: Entries, cs: seq<EmbeddedCircuit>, parse: string -> Result<Abi>,
                                                   compile: seq<uint8> -> Bytes32, j: nat)
    requires j < |cs| && parse(cs[j].abiJson).Err? && AllParse(cs[..j], parse)
    ensures Loaded(m, cs, parse, compile).1 == Err(AbiParse(cs[j].name))
    ensures Loaded(m, cs, parse, compile).0 == Loaded(m, cs[..j], parse, compile).0
    ensures Loaded(m, cs, parse, compile).0.Keys == m.Keys + Names(cs[..j])
    decreases j
  {
    LoadedKeys(m, cs[..j], parse, compile);
    if j > 0 {
      ParsePrefixShift(cs, parse, j);
      var abi := parse(cs[0].abiJson).value;
      InitStopsAtFirstFailure(WithEntry(m, EmbeddedEntry(cs[0], abi, compile)), cs[1..], parse, compile, j - 1);
    }
  }

  /**
   * When every ABI parses, `init_embedded` succeeds and registers exactly the
   * embedded names beside those already present.
   */
  lemma {:induction false} LoadedKeys(m: Entries, cs: seq<EmbeddedCircuit>, parse: string -> Result<Abi>,
                                      compile: seq<uint8> -> Bytes32)
    requires AllParse(cs, parse)
    ensures Loaded(m, cs, parse, compile).1 == Ok(())
    ensures Loaded(m, cs, parse, compile).0.Keys == m.Keys + Names(cs)
    decreases |cs|
  {
    if cs != [] {
      var abi := parse(cs[0].abiJson).value;
      var e := EmbeddedEntry(cs[0], abi, compile);
      LoadedKeys(WithEntry(m, e), cs[1..], parse, compile);
      assert Names(cs) == {cs[0].name} + Names(cs[1..]) by {
        forall n | n in Names(cs) ensures n in {cs[0].name} + Names(cs[1..]) {
          var i :| 0 <= i < |cs| && cs[i].name == n;
          if i > 0 {
            assert cs[1..][i - 1] == cs[i];
          }
        }
      }
    }
  }

  /** The last circuit embedded under a name is the one registered under it. */
  lemma {:induction false} LastEmbeddedWins(m: Entries, cs: seq<EmbeddedCircuit>, parse: string -> Result<Abi>,
                                            compile: seq<uint8> -> Bytes32)
    requires AllParse(cs, parse) && cs != []
    ensures cs[|cs| - 1].name in Loaded(m, cs, parse, compile).0
    ensures var c := cs[|cs| - 1];
            Loaded(m, cs, parse, compile).0[c.name] == EmbeddedEntry(c, parse(c.abiJson).value, compile)
    decreases |cs|
  {
    LoadedKeys(m, cs, parse, compile);
    var abi := parse(cs[0].abiJson).value;
    var e := EmbeddedEntry(cs[0], abi, compile);
    if |cs| > 1 {
      assert cs[1..][|cs| - 2] == cs[|cs| - 1];
      LastEmbeddedWins(WithEntry(m, e), cs[1..], parse, compile);
    }
  }

  // ---------------------------------------------------------------- the registry object

  /** No element occurs twice. */
  predicate Distinct(s: seq<string>)
  {
    forall i, j :: 0 <= i < j < |s| ==> s[i] != s[j]
  }

  /** The registry: circuits by name and verifying keys by id. */
  class Catalog {
    var entries: Entries
    var vkEntries: map<Bytes32, VkEntry>

    /** An empty registry. */
    constructor()
      ensures entries == map[] && vkEntries == map[]
    {
      entries := map[];
      vkEntries := map[];
    }

    /** `get`: the entry registered under `name`, if any. */
    method Get(name: string) returns (r: Option<CircuitEntry>)
      ensures r.Some? <==> name in entries
      ensures r.Some? ==> r.value == entries[name]
    {
      if name in entries {
        r := Some(entries[name]);
      } else {
        r := None;
      }
    }

    /** `insert`: registers `e` under its name, replacing an entry of the same name. */
    method Insert(e: CircuitEntry)
      modifies this
      ensures entries == WithEntry(old(entries), e)
      ensures vkEntries == old(vkEntries)
    {
      entries := entries[e.name := e];
    }

    /** `update_vk(name, vk)`: fills the key of an existing entry whose key is still empty. */
    method UpdateVk(name: string, vk: seq<uint8>)
      modifies this
      ensures entries == WithVk(old(entries), name, vk)
      ensures vkEntries == old(vkEntries)
    {
      if name in entries && entries[name].vk == [] {
        entries := entries[name := entries[name].(vk := vk)];
      }
    }

    /** The four-argument `update_vk` the prover calls (see `WithVkMeta`). */
    method UpdateVkMeta(name: string, vk: seq<uint8>, hash: Option<Bytes32>, keyId: Option<Bytes32>)
      modifies this
      ensures entries == WithVkMeta(old(entries), name, vk, hash, keyId)
      ensures vkEntries == old(vkEntries)
    {
      if name in entries {
        var e := entries[name];
        if vk != [] {
          e := e.(vk := vk);
        }
        if hash.Some? {
          e := e.(vkHash := hash);
        }
        if keyId.Some? {
          e := e.(keyId := keyId.value);
        }
        entries := entries[name := e];
      }
    }

    /** `clear`: removes every circuit. */
    method Clear()
      modifies this
      ensures entries == map[]
      ensures vkEntries == old(vkEntries)
    {
      entries := map[];
    }

    /** `all_loaded`: every registered name once, in the map's own (unspecified) order. */
    method AllLoaded() returns (names: seq<string>)
      ensures forall n :: n in names <==> n in entries
      ensures Distinct(names)
    {
      names := [];
      var rest := entries.Keys;
      while rest != {}
        invariant rest <= entries.Keys
        invariant forall n :: n in names <==> n in entries && n !in rest
        invariant Distinct(names)
        decreases |rest|
      {
        var n :| n in rest;
        names := names + [n];
        rest := rest - {n};
      }
    }

    /** `get_vk_entry_by_id`: the id-only verifying key registered under `id`, if any. */
    method GetVkEntry(id: Bytes32) returns (r: Option<VkEntry>)
      ensures r.Some? <==> id in vkEntries
      ensures r.Some? ==> r.value == vkEntries[id]
    {
      if id in vkEntries {
        r := Some(vkEntries[id]);
      } else {
        r := None;
      }
    }

    /** `upsert_vk_entry`: registers or replaces the id-only verifying key `id`. */
    method UpsertVkEntry(id: Bytes32, bytes: seq<uint8>, hash: Option<Bytes32>)
      modifies this
      ensures vkEntries == old(vkEntries)[id := VkEntry(bytes, hash)]
      ensures entries == old(entries)
    {
      vkEntries := vkEntries[id := VkEntry(bytes, hash)];
    }

    /**
     * `init_embedded`: parses each embedded circuit's ABI and inserts the
     * circuit, stopping at the first ABI that does not parse.
     */
    method InitEmbedded(cs: seq<EmbeddedCircuit>, parse: string -> Result<Abi>, compile: seq<uint8> -> Bytes32)
      returns (r: Result<()>)
      modifies this
      ensures (entries, r) == Loaded(old(entries), cs, parse, compile)
      ensures vkEntries == old(vkEntries)
    {
      for i := 0 to |cs|
        invariant Loaded(entries, cs[i..], parse, compile) == Loaded(old(entries), cs, parse, compile)
        invariant vkEntries == old(vkEntries)
      {
        assert cs[i..][1..] == cs[i + 1..];
        var parsed := parse(cs[i].abiJson);
        if parsed.Err? {
          return Err(AbiParse(cs[i].name));
        }
        Insert(EmbeddedEntry(cs[i], parsed.value, compile));
      }
      r := Ok(());
    }
  }
}
