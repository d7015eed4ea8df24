/**
 The sync endpoint: for each requested account, in order, report it as
 connected (with its balances) or disconnected.

 An account absent from the registry is disconnected without asking the
 terminal. For a registered account the terminal's one session is asked for
 its snapshot, and the account is connected only when that snapshot exists
 and belongs to it. The terminal's answer to each lookup is an input, and
 answers may differ between the lookups of one batch.
 */
module Sync {
  import opened Values
  import opened Terminal
  import opened Registry

  /** One element of the body's `accounts` list: the value as given, and its `int(...)` conversion. */
  datatype RequestedAccount = RequestedAccount(given: string, id: Parsed<int>)

  /** One element of the response's `accounts` list (its timestamp is left out). */
  datatype SyncEntry =
    | Connected(accountNumber: string, balance: real, equity: real, currency: string, margin: real, marginFree: real)
    | Disconnected(accountNumber: string)

  /** The response body: `status: success` with the entries, or `status: error` (HTTP 500). */
  datatype SyncResponse = SyncSuccess(accounts: seq<SyncEntry>) | SyncError(error: string)

  /**
   The response together with one flag per processed entry telling whether
   `account_info()` was called for it.
   */
  datatype SyncRun = SyncRun(response: SyncResponse, lookups: seq<bool>)

  // ---------------------------------------------------------------------------
  // Specification predicates
  // ---------------------------------------------------------------------------

  /**
   The entry reported for account `id`, given as `given`: connected exactly
   when the account is registered and the session's snapshot is its own, and
   then carrying that snapshot's figures.
   */
  ghost predicate Synced(e: SyncEntry, given: string, id: int, conns: Connections, info: Option<AccountInfo>)
  {
    && e.accountNumber == given
    && (e.Connected? <==> id in conns && info.Some? && info.value.login == id)
    && (e.Connected? ==>
          && e.balance == info.value.balance
          && e.equity == info.value.equity
          && e.currency == info.value.currency
          && e.margin == info.value.margin
          && e.marginFree == info.value.marginFree)
  }

  // ---------------------------------------------------------------------------
  // Operations
  // ---------------------------------------------------------------------------

  /** One registered-or-not account. */
  function SyncOne(conns: Connections, info: Option<AccountInfo>, given: string, id: int): (e: SyncEntry)
    ensures Synced(e, given, id, conns, info)
  {
    if id in conns then
      if info.Some? && info.value.login == id then
        var i := info.value;
        Connected(given, i.balance, i.equity, i.currency, i.margin, i.marginFree)
      else Disconnected(given)
    else Disconnected(given)
  }

  /**
   The loop over `requested[i..]`; an entry that does not convert raises and
   ends it. `info(k)` is what `account_info()` answers when it is asked while
   the k-th entry is processed: each lookup may see a different snapshot.
   */
  function SyncFrom(
    conns: Connections, info: nat -> Option<AccountInfo>, requested: seq<RequestedAccount>, i: nat): (r: SyncRun)
    requires i <= |requested|
    ensures r.response.SyncSuccess? <==> forall k :: i <= k < |requested| ==> requested[k].id.Value?
    ensures r.response.SyncSuccess? ==>
              && |r.response.accounts| == |requested| - i == |r.lookups|
              && forall k :: 0 <= k < |r.response.accounts| ==>
                   requested[i + k].id.Value? &&
                   Synced(r.response.accounts[k], requested[i + k].given, requested[i + k].id.value, conns, info(i + k))
    ensures r.response.SyncError? ==>
              && i + |r.lookups| < |requested|
              && requested[i + |r.lookups|].id.Unparsable?
              && r.response.error == requested[i + |r.lookups|].id.error
    ensures |r.lookups| <= |requested| - i
    ensures forall k :: i <= k < i + |r.lookups| ==>
              requested[k].id.Value? && (r.lookups[k - i] <==> requested[k].id.value in conns)
    decreases |requested| - i
  {
    if i == |requested| then SyncRun(SyncSuccess([]), [])
    else
      match requested[i].id
      case Unparsable(error) => SyncRun(SyncError(error), [])
      case Value(id) =>
        var e := SyncOne(conns, info(i), requested[i].given, id);
        var rest := SyncFrom(conns, info, requested, i + 1);
        var response :=
          match rest.response
          case SyncSuccess(entries) => SyncSuccess([e] + entries)
          case SyncError(error) => SyncError(error);
        SyncRun(response, [id in conns] + rest.lookups)
  }

  /**
   The sync endpoint. A body without an `accounts` list is answered with an
   error. Otherwise every requested account gets one entry, in order, unless
   some value fails to convert: then the whole call is answered with the
   first such value's error.
   */
  function SyncAccounts(
    conns: Connections, info: nat -> Option<AccountInfo>, body: Parsed<seq<RequestedAccount>>): (r: SyncRun)
    ensures body.Unparsable? ==> r.response == SyncError(body.error) && r.lookups == []
    ensures r.response.SyncSuccess? <==>
              body.Value? && forall k :: 0 <= k < |body.value| ==> body.value[k].id.Value?
    ensures r.response.SyncSuccess? ==>
              && |r.response.accounts| == |body.value| == |r.lookups|
              && forall k :: 0 <= k < |body.value| ==>
                   body.value[k].id.Value? &&
                   Synced(r.response.accounts[k], body.value[k].given, body.value[k].id.value, conns, info(k))
    ensures r.response.SyncError? && body.Value? ==>
              && |r.lookups| < |body.value|
              && (forall k :: 0 <= k < |r.lookups| ==> body.value[k].id.Value?)
              && body.value[|r.lookups|].id.Unparsable?
              && r.response.error == body.value[|r.lookups|].id.error
    ensures body.Value? ==>
              forall k :: 0 <= k < |r.lookups| ==>
                body.value[k].id.Value? && (r.lookups[k] <==> body.value[k].id.value in conns)
  {
    match body
    case Unparsable(error) => SyncRun(SyncError(error), [])
    case Value(requested) =>
      assert forall k :: 0 <= k < |requested| ==> requested[0 + k] == requested[k];
      SyncFrom(conns, info, requested, 0)
  }

  // ---------------------------------------------------------------------------
  // Properties
  // ---------------------------------------------------------------------------

  /** Every lookup of the batch that returns a snapshot reports the same login. */
  ghost predicate OneLogin(info: nat -> Option<AccountInfo>, login: int)
  {
    forall n :: info(n).Some? ==> info(n).value.login == login
  }

  /**
   Each connected entry is for the account its lookup was logged into; when
   the session stays on one login for the whole batch, every connected entry
   is for that one account.
   */
  lemma ConnectedEntriesShareLogin(
    conns: Connections, info: nat -> Option<AccountInfo>, requested: seq<RequestedAccount>, i: nat, j: nat)
    requires i < |requested| && j < |requested|
    ensures var r := SyncFrom(conns, info, requested, 0).response;
            r.SyncSuccess? && r.accounts[i].Connected? ==>
              info(i).Some? && requested[i].id.value == info(i).value.login
    ensures var r := SyncFrom(conns, info, requested, 0).response;
            forall login :: OneLogin(info, login) && r.SyncSuccess? && r.accounts[i].Connected? && r.accounts[j].Connected? ==>
              requested[i].id.value == requested[j].id.value == login
  {
    var r := SyncFrom(conns, info, requested, 0).response;
    if r.SyncSuccess? {
      assert requested[0 + i] == requested[i] && requested[0 + j] == requested[j];
    }
  }

  /** An account missing from the registry is reported disconnected, and the terminal is not asked about it. */
  lemma UnregisteredIsDisconnected(
    conns: Connections, info: nat -> Option<AccountInfo>, requested: seq<RequestedAccount>, k: nat)
    requires forall j :: 0 <= j < |requested| ==> requested[j].id.Value?
    requires k < |requested| && requested[k].id.value !in conns
    ensures SyncFrom(conns, info, requested, 0).response.accounts[k] == Disconnected(requested[k].given)
    ensures !SyncFrom(conns, info, requested, 0).lookups[k]
  {
    assert requested[0 + k] == requested[k];
  }

  /** When no lookup of the batch gets a snapshot from the terminal, every account is disconnected. */
  lemma NoSessionAllDisconnected(conns: Connections, info: nat -> Option<AccountInfo>, requested: seq<RequestedAccount>)
    requires forall n :: info(n).None?
    requires forall j :: 0 <= j < |requested| ==> requested[j].id.Value?
    ensures SyncFrom(conns, info, requested, 0).response ==
              SyncSuccess(seq(|requested|, k requires 0 <= k < |requested| => Disconnected(requested[k].given)))
  {
    var entries := SyncFrom(conns, info, requested, 0).response.accounts;
    assert forall k :: 0 <= k < |requested| ==> requested[0 + k] == requested[k];
    assert forall k :: 0 <= k < |requested| ==> entries[k] == Disconnected(requested[k].given);
  }
}
