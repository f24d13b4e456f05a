/** Single-transaction Sapling scanning: every account's keys are tried against every output of a
    transaction's Sapling bundle, external key first, then internal key, then outgoing-key
    recovery; the first that succeeds decides how the output relates to the wallet. */
module Decrypt {
  import opened Primitives

  type AccountId(==)
  /** A Sapling diversifiable full viewing key. */
  type Dfvk
  type SaplingIvk
  type Ovk
  type SaplingOutput
  type SaplingNote
  type PaymentAddress
  type Memo
  /** Whether ZIP 212 note plaintexts are enforced at the transaction's height. */
  type Zip212Enforcement

  datatype Scope = External | Internal

  /** A unified full viewing key; only its Sapling component matters here. */
  datatype Ufvk = Ufvk(sapling: Option<Dfvk>)

  datatype Bundle = Bundle(shieldedOutputs: seq<SaplingOutput>)
  datatype Transaction = Transaction(saplingBundle: Option<Bundle>)

  /** The relationship of an output to the wallet. */
  datatype TransferType = Incoming | WalletInternal | Outgoing

  /** A recovered note plaintext: the note, its recipient and its memo. */
  datatype Plaintext = Plaintext(note: SaplingNote, recipient: PaymentAddress, memo: Memo)

  datatype DecryptedOutput = DecryptedOutput(index: nat, note: SaplingNote, account: AccountId,
                                             memo: Memo, transferType: TransferType)

  /** The key derivations and the two note-encryption operations. */
  datatype Crypto = Crypto(
    toIvk: (Dfvk, Scope) -> SaplingIvk,
    ovk: Dfvk -> Ovk,
    tryNoteDecryption: (SaplingIvk, SaplingOutput, Zip212Enforcement) -> Option<Plaintext>,
    tryOutputRecovery: (Ovk, SaplingOutput, Zip212Enforcement) -> Option<Plaintext>)

  function TryExternal(c: Crypto, z: Zip212Enforcement, dfvk: Dfvk, output: SaplingOutput): Option<Plaintext> {
    c.tryNoteDecryption(c.toIvk(dfvk, External), output, z)
  }

  function TryInternal(c: Crypto, z: Zip212Enforcement, dfvk: Dfvk, output: SaplingOutput): Option<Plaintext> {
    c.tryNoteDecryption(c.toIvk(dfvk, Internal), output, z)
  }

  function TryRecovery(c: Crypto, z: Zip212Enforcement, dfvk: Dfvk, output: SaplingOutput): Option<Plaintext> {
    c.tryOutputRecovery(c.ovk(dfvk), output, z)
  }

  /** The fallback chain for one output under one account's key: the output is incoming exactly
      when the external key decrypts it, wallet-internal exactly when only the internal key does,
      outgoing exactly when neither does and recovery succeeds, and absent when all three fail;
      the plaintext is the one the deciding step produced. */
  function TryOutput(c: Crypto, z: Zip212Enforcement, dfvk: Dfvk, output: SaplingOutput): (r: Option<(Plaintext, TransferType)>)
    ensures (r.Some? && r.value.1 == Incoming) <==> TryExternal(c, z, dfvk, output).Some?
    ensures (r.Some? && r.value.1 == WalletInternal) <==>
      TryExternal(c, z, dfvk, output).None? && TryInternal(c, z, dfvk, output).Some?
    ensures (r.Some? && r.value.1 == Outgoing) <==>
      TryExternal(c, z, dfvk, output).None? && TryInternal(c, z, dfvk, output).None? && TryRecovery(c, z, dfvk, output).Some?
    ensures r.None? <==>
      TryExternal(c, z, dfvk, output).None? && TryInternal(c, z, dfvk, output).None? && TryRecovery(c, z, dfvk, output).None?
    ensures r.Some? ==> Some(r.value.0) == match r.value.1
      case Incoming => TryExternal(c, z, dfvk, output)
      case WalletInternal => TryInternal(c, z, dfvk, output)
      case Outgoing => TryRecovery(c, z, dfvk, output)
  {
    match TryExternal(c, z, dfvk, output)
    case Some(p) => Some((p, Incoming))
    case None =>
      match TryInternal(c, z, dfvk, output)
      case Some(p) => Some((p, WalletInternal))
      case None =>
        match TryRecovery(c, z, dfvk, output)
        case Some(p) => Some((p, Outgoing))
        case None => None
  }

  /** The result reported for output `i` under `account`'s key, if any. */
  function EntryAt(c: Crypto, z: Zip212Enforcement, account: AccountId, dfvk: Dfvk,
                   outputs: seq<SaplingOutput>, i: nat): Option<DecryptedOutput>
    requires i < |outputs|
  {
    match TryOutput(c, z, dfvk, outputs[i])
    case Some((p, t)) => Some(DecryptedOutput(i, p.note, account, p.memo, t))
    case None => None
  }

  /** The results for one account over the outputs from position `i` on: each at most once per
      output, in increasing output index, each index a position of the bundle, each tagged with
      the account, and each the entry its output yields. */
  function AccountOutputsFrom(c: Crypto, z: Zip212Enforcement, account: AccountId, dfvk: Dfvk,
                              outputs: seq<SaplingOutput>, i: nat): (r: seq<DecryptedOutput>)
    requires i <= |outputs|
    ensures |r| <= |outputs| - i
    ensures forall k :: 0 <= k < |r| ==> i <= r[k].index < |outputs| && r[k].account == account
    ensures forall k :: 0 <= k < |r| ==> r[k].index < |outputs| && EntryAt(c, z, account, dfvk, outputs, r[k].index) == Some(r[k])
    ensures forall k, l :: 0 <= k < l < |r| ==> r[k].index < r[l].index
    decreases |outputs| - i
  {
    if i == |outputs| then []
    else
      (match EntryAt(c, z, account, dfvk, outputs, i) case Some(e) => [e] case None => [])
      + AccountOutputsFrom(c, z, account, dfvk, outputs, i + 1)
  }

  /** Every output from position `i` on that yields an entry for the account is reported. */
  lemma {:induction false} AccountOutputsComplete(c: Crypto, z: Zip212Enforcement, account: AccountId, dfvk: Dfvk,
                                                  outputs: seq<SaplingOutput>, i: nat, j: nat)
    requires i <= j < |outputs| && EntryAt(c, z, account, dfvk, outputs, j).Some?
    ensures EntryAt(c, z, account, dfvk, outputs, j).value in AccountOutputsFrom(c, z, account, dfvk, outputs, i)
    decreases j - i
  {
    if i < j {
      AccountOutputsComplete(c, z, account, dfvk, outputs, i + 1, j);
    }
  }

  /** The number of accounts with a Sapling key. */
  function SaplingAccounts(ufvks: seq<(AccountId, Ufvk)>): nat {
    if ufvks == [] then 0
    else (if ufvks[0].1.sapling.Some? then 1 else 0) + SaplingAccounts(ufvks[1..])
  }

  /** The results of every account in turn: an account without a Sapling key contributes
      nothing, and in total there is at most one result per Sapling account and output. */
  function AllAccounts(c: Crypto, z: Zip212Enforcement, ufvks: seq<(AccountId, Ufvk)>,
                       outputs: seq<SaplingOutput>): (r: seq<DecryptedOutput>)
    ensures |r| <= SaplingAccounts(ufvks) * |outputs|
    ensures forall k :: 0 <= k < |r| ==> r[k].index < |outputs|
  {
    if ufvks == [] then []
    else
      var rest := AllAccounts(c, z, ufvks[1..], outputs);
      match ufvks[0].1.sapling
      case None => rest
      case Some(dfvk) =>
        var mine := AccountOutputsFrom(c, z, ufvks[0].0, dfvk, outputs, 0);
        assert |mine + rest| <= SaplingAccounts(ufvks) * |outputs| by {
          assert SaplingAccounts(ufvks) * |outputs| == |outputs| + SaplingAccounts(ufvks[1..]) * |outputs|;
        }
        mine + rest
  }

  /** Scans a transaction: no Sapling bundle, no results; otherwise the results of every account
      against the bundle's outputs. */
  function DecryptTransaction(c: Crypto, z: Zip212Enforcement, tx: Transaction,
                              ufvks: seq<(AccountId, Ufvk)>): (r: seq<DecryptedOutput>)
    ensures tx.saplingBundle.None? ==> r == []
    ensures tx.saplingBundle.Some? ==>
      |r| <= SaplingAccounts(ufvks) * |tx.saplingBundle.value.shieldedOutputs|
      && forall k :: 0 <= k < |r| ==> r[k].index < |tx.saplingBundle.value.shieldedOutputs|
  {
    match tx.saplingBundle
    case None => []
    case Some(bundle) => AllAccounts(c, z, ufvks, bundle.shieldedOutputs)
  }

  /** Each result was produced by an account with a Sapling key, is tagged with that account, and
      is the entry its output yields under that key. */
  lemma {:induction false} AllAccountsSound(c: Crypto, z: Zip212Enforcement, ufvks: seq<(AccountId, Ufvk)>,
                                            outputs: seq<SaplingOutput>, k: nat)
    returns (j: nat)
    requires k < |AllAccounts(c, z, ufvks, outputs)|
    ensures j < |ufvks| && ufvks[j].1.sapling.Some?
    ensures AllAccounts(c, z, ufvks, outputs)[k].account == ufvks[j].0
    ensures AllAccounts(c, z, ufvks, outputs)[k].index < |outputs|
    ensures EntryAt(c, z, ufvks[j].0, ufvks[j].1.sapling.value, outputs, AllAccounts(c, z, ufvks, outputs)[k].index)
         == Some(AllAccounts(c, z, ufvks, outputs)[k])
  {
    var rest := AllAccounts(c, z, ufvks[1..], outputs);
    match ufvks[0].1.sapling
    case None =>
      var j' := AllAccountsSound(c, z, ufvks[1..], outputs, k);
      j := j' + 1;
    case Some(dfvk) =>
      var mine := AccountOutputsFrom(c, z, ufvks[0].0, dfvk, outputs, 0);
      if k < |mine| {
        j := 0;
      } else {
        var j' := AllAccountsSound(c, z, ufvks[1..], outputs, k - |mine|);
        j := j' + 1;
      }
  }

  /** Every output that an account with a Sapling key can decrypt or recover is reported. */
  lemma {:induction false} AllAccountsComplete(c: Crypto, z: Zip212Enforcement, ufvks: seq<(AccountId, Ufvk)>,
                                               outputs: seq<SaplingOutput>, j: nat, i: nat)
    requires j < |ufvks| && ufvks[j].1.sapling.Some? && i < |outputs|
    requires EntryAt(c, z, ufvks[j].0, ufvks[j].1.sapling.value, outputs, i).Some?
    ensures EntryAt(c, z, ufvks[j].0, ufvks[j].1.sapling.value, outputs, i).value in AllAccounts(c, z, ufvks, outputs)
  {
    if j == 0 {
      AccountOutputsComplete(c, z, ufvks[0].0, ufvks[0].1.sapling.value, outputs, 0, i);
    } else {
      AllAccountsComplete(c, z, ufvks[1..], outputs, j - 1, i);
    }
  }

  /** Scanning accounts one list after another is scanning them together. */
  lemma {:induction false} AllAccountsAppend(c: Crypto, z: Zip212Enforcement, a: seq<(AccountId, Ufvk)>,
                                             b: seq<(AccountId, Ufvk)>, outputs: seq<SaplingOutput>)
    ensures AllAccounts(c, z, a + b, outputs) == AllAccounts(c, z, a, outputs) + AllAccounts(c, z, b, outputs)
  {
    if a == [] {
      assert a + b == b;
    } else {
      assert (a + b)[0] == a[0];
      assert (a + b)[1..] == a[1..] + b;
      AllAccountsAppend(c, z, a[1..], b, outputs);
      var tail := AllAccounts(c, z, a[1..], outputs) + AllAccounts(c, z, b, outputs);
      match a[0].1.sapling
      case None =>
      case Some(dfvk) =>
        var mine := AccountOutputsFrom(c, z, a[0].0, dfvk, outputs, 0);
        assert mine + tail == (mine + AllAccounts(c, z, a[1..], outputs)) + AllAccounts(c, z, b, outputs);
    }
  }

  /** An account without a Sapling key contributes nothing: leaving it out changes nothing. */
  lemma NoSaplingNoResults(c: Crypto, z: Zip212Enforcement, ufvks: seq<(AccountId, Ufvk)>,
                           outputs: seq<SaplingOutput>, j: nat)
    requires j < |ufvks| && ufvks[j].1.sapling.None?
    ensures AllAccounts(c, z, ufvks, outputs) == AllAccounts(c, z, ufvks[..j] + ufvks[j + 1..], outputs)
  {
    assert ufvks == ufvks[..j] + ([ufvks[j]] + ufvks[j + 1..]);
    AllAccountsAppend(c, z, ufvks[..j], [ufvks[j]] + ufvks[j + 1..], outputs);
    AllAccountsAppend(c, z, ufvks[..j], ufvks[j + 1..], outputs);
    assert ([ufvks[j]] + ufvks[j + 1..])[1..] == ufvks[j + 1..];
  }

  /** With distinct accounts, no result of the rest is tagged with the first account. */
  lemma RestNotFirst(c: Crypto, z: Zip212Enforcement, ufvks: seq<(AccountId, Ufvk)>, outputs: seq<SaplingOutput>)
    requires ufvks != []
    requires forall j, l :: 0 <= j < l < |ufvks| ==> ufvks[j].0 != ufvks[l].0
    ensures forall j, l :: 0 <= j < l < |ufvks[1..]| ==> ufvks[1..][j].0 != ufvks[1..][l].0
    ensures forall l :: 0 <= l < |AllAccounts(c, z, ufvks[1..], outputs)| ==>
      AllAccounts(c, z, ufvks[1..], outputs)[l].account != ufvks[0].0
  {
    var tail := ufvks[1..];
    forall j, l | 0 <= j < l < |tail| ensures tail[j].0 != tail[l].0 {
      assert tail[j] == ufvks[j + 1] && tail[l] == ufvks[l + 1];
    }
    forall l | 0 <= l < |AllAccounts(c, z, tail, outputs)| ensures AllAccounts(c, z, tail, outputs)[l].account != ufvks[0].0 {
      var j := AllAccountsSound(c, z, tail, outputs, l);
      assert tail[j] == ufvks[j + 1];
    }
  }

  /** With distinct accounts, each account's results appear in strictly increasing output index,
      so no account reports the same output twice. */
  lemma {:induction false} AllAccountsIncreasing(c: Crypto, z: Zip212Enforcement,
                                                 ufvks: seq<(AccountId, Ufvk)>, outputs: seq<SaplingOutput>)
    requires forall j, l :: 0 <= j < l < |ufvks| ==> ufvks[j].0 != ufvks[l].0
    ensures forall k, l ::
      (0 <= k < l < |AllAccounts(c, z, ufvks, outputs)| &&
       AllAccounts(c, z, ufvks, outputs)[k].account == AllAccounts(c, z, ufvks, outputs)[l].account) ==>
      AllAccounts(c, z, ufvks, outputs)[k].index < AllAccounts(c, z, ufvks, outputs)[l].index
  {
    if ufvks != [] {
      RestNotFirst(c, z, ufvks, outputs);
      AllAccountsIncreasing(c, z, ufvks[1..], outputs);
      var rest := AllAccounts(c, z, ufvks[1..], outputs);
      match ufvks[0].1.sapling
      case None =>
      case Some(dfvk) =>
        var mine := AccountOutputsFrom(c, z, ufvks[0].0, dfvk, outputs, 0);
        var all := mine + rest;
        forall k, l | 0 <= k < l < |all| && all[k].account == all[l].account ensures all[k].index < all[l].index {
          if |mine| <= k {
            assert all[k] == rest[k - |mine|] && all[l] == rest[l - |mine|];
          }
        }
    }
  }

  /** With distinct accounts, results are grouped by account: the results between two of one
      account's results belong to that account too. */
  lemma {:induction false} AllAccountsGrouped(c: Crypto, z: Zip212Enforcement,
                                              ufvks: seq<(AccountId, Ufvk)>, outputs: seq<SaplingOutput>)
    requires forall j, l :: 0 <= j < l < |ufvks| ==> ufvks[j].0 != ufvks[l].0
    ensures forall k, m, l ::
      (0 <= k < m < l < |AllAccounts(c, z, ufvks, outputs)| &&
       AllAccounts(c, z, ufvks, outputs)[k].account == AllAccounts(c, z, ufvks, outputs)[l].account) ==>
      AllAccounts(c, z, ufvks, outputs)[m].account == AllAccounts(c, z, ufvks, outputs)[k].account
  {
    if ufvks != [] {
      RestNotFirst(c, z, ufvks, outputs);
      AllAccountsGrouped(c, z, ufvks[1..], outputs);
      var rest := AllAccounts(c, z, ufvks[1..], outputs);
      match ufvks[0].1.sapling
      case None =>
      case Some(dfvk) =>
        var mine := AccountOutputsFrom(c, z, ufvks[0].0, dfvk, outputs, 0);
        var all := mine + rest;
        forall k, m, l | 0 <= k < m < l < |all| && all[k].account == all[l].account
          ensures all[m].account == all[k].account
        {
          if |mine| <= k {
            assert all[k] == rest[k - |mine|] && all[m] == rest[m - |mine|] && all[l] == rest[l - |mine|];
          }
        }
    }
  }
}
