/**
 * The platform types both contracts use: account names, token symbols and assets, the
 * chain services an action consults, and the key allocation of a keyed table.
 */
module Eosio {
  import opened Wrappers

  const U32_MOD: nat := 0x1_0000_0000
  const U64_MOD: nat := 0x1_0000_0000_0000_0000

  type U32 = x: nat | x < U32_MOD
  type U64 = x: nat | x < U64_MOD

  /** An account name; the empty name is `name()`. */
  type Name = string

  const EMPTY_NAME: Name := ""

  /** A token symbol: its code and its decimal precision. `symbol()` is the empty code with precision 0. */
  datatype Symbol = Symbol(code: string, precision: nat)

  const EMPTY_SYMBOL: Symbol := Symbol("", 0)

  /** A signed amount of some symbol, as `asset`. */
  datatype Asset = Asset(amount: int, symbol: Symbol)

  /** A symbol together with the token contract that issues it, as `extended_symbol`. */
  datatype ExtSymbol = ExtSymbol(symbol: Symbol, contract: Name)

  /** An asset together with its token contract, as `extended_asset`. */
  datatype ExtAsset = ExtAsset(quantity: Asset, contract: Name) {
    function ExtendedSymbol(): ExtSymbol { ExtSymbol(quantity.symbol, contract) }
  }

  predicate IsUpperLetter(ch: char) { 'A' <= ch <= 'Z' }

  /**
   * `symbol::is_valid`: a code of one to seven upper-case letters. The precision is not checked;
   * it is a `uint8_t`, so it is below 256.
   */
  predicate SymbolIsValid(s: Symbol)
  {
    0 < |s.code| <= 7 && (forall i :: 0 <= i < |s.code| ==> IsUpperLetter(s.code[i])) && s.precision < 256
  }

  /** `asset >= asset`: comparing assets of different symbols aborts the transaction. */
  function AssetGe(a: Asset, b: Asset): (r: Option<bool>)
    ensures r.Some? <==> a.symbol == b.symbol
    ensures r.Some? ==> (r.value <==> a.amount >= b.amount)
  {
    if a.symbol != b.symbol then None else Some(a.amount >= b.amount)
  }

  /**
   * What an action learns from the chain: the current time in seconds, the accounts whose
   * authority the transaction carries (`require_auth`, `has_auth`), the accounts that exist
   * (`is_account`) and, for a transfer notification, the contract that sent it
   * (`get_first_receiver`).
   */
  datatype Chain = Chain(now: nat, auth: set<Name>, accounts: set<Name>, firstReceiver: Name)

  /** `(a - b)` on 32-bit second counters, as `sec_since_epoch()` differences wrap. */
  function ElapsedSec(now: nat, since: nat): (r: U32)
    ensures since <= now < since + U32_MOD ==> r == now - since
  {
    (now - since) % U32_MOD
  }

  /** Reducing a partial sum modulo 2^32 does not change the reduced total. */
  lemma ModAddAssoc(a: nat, b: nat, c: nat)
    ensures ((a + b) % U32_MOD + c) % U32_MOD == (a + b + c) % U32_MOD
  {
  }

  lemma {:induction false} MaxExists(keys: set<nat>)
    requires keys != {}
    ensures exists k :: k in keys && forall j :: j in keys ==> j <= k
  {
    var x :| x in keys;
    if keys != {x} {
      MaxExists(keys - {x});
      var k :| k in keys - {x} && forall j :: j in keys - {x} ==> j <= k;
      var m := if x <= k then k else x;
      forall j | j in keys
        ensures j <= m
      {
        if j != x { assert j in keys - {x}; }
      }
    }
  }

  function MaxKey(keys: set<nat>): (k: nat)
    requires keys != {}
    ensures k in keys && forall j :: j in keys ==> j <= k
  {
    MaxExists(keys);
    var k :| k in keys && forall j :: j in keys ==> j <= k; k
  }

  /**
   * `available_primary_key()` of a table: one past the largest key in use, or 0 for an empty
   * table. It is never a key in use.
   */
  function AvailablePrimaryKey<V>(table: map<nat, V>): (k: nat)
    ensures k !in table
    ensures forall j :: j in table ==> j < k
    ensures k == 0 <==> table == map[]
    ensures table != map[] ==> k > 0 && k - 1 in table
  {
    if table == map[] then 0 else MaxKey(table.Keys) + 1
  }
}
