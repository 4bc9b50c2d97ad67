/** Client filters: compilation, matching, routing, and what the multiplexer itself subscribes to. */
module Filters {
  import opened Prelude
  import opened Geyser

  /** Base58 decoding is a library call: any partial function. */
  type Base58 = string -> Option<Bytes>

  datatype SlotsFilter = SlotsFilter(filterByCommitment: Option<bool>, interslotUpdates: Option<bool>)
  datatype TransactionsFilter = TransactionsFilter(
    vote: Option<bool>,
    failed: Option<bool>,
    signature: Option<string>,
    accountInclude: seq<string>,
    accountExclude: seq<string>,
    accountRequired: seq<string>,
    hasCuckooFilter: bool,
    hasTokenAccounts: bool)
  datatype EntryFilter = EntryFilter(includeUpdateParent: Option<bool>)
  datatype BlockFooterFilter = BlockFooterFilter(includeCertificates: Option<bool>)

  /** A table of named filters, listed in whatever order the hash map yields its entries. */
  type Named<F> = seq<(string, F)>

  datatype SubscribeRequest = SubscribeRequest(
    accounts: seq<string>,
    slots: Named<SlotsFilter>,
    transactions: Named<TransactionsFilter>,
    transactionsStatus: seq<string>,
    blocks: seq<string>,
    blocksMeta: seq<string>,
    entry: Named<EntryFilter>,
    blockFooter: Named<BlockFooterFilter>,
    ping: Option<int>,
    fromSlot: Option<nat>)

  datatype CompiledTxFilter = CompiledTxFilter(
    vote: Option<bool>,
    failed: Option<bool>,
    signature: Option<Bytes>,
    accountInclude: set<Bytes>,
    accountExclude: set<Bytes>,
    accountRequired: set<Bytes>)

  datatype CompiledFilters = CompiledFilters(
    transactions: Named<CompiledTxFilter>,
    slots: seq<string>,
    blocksMeta: seq<string>,
    entry: seq<string>,
    blockFooter: seq<string>,
    hasAccounts: bool,
    hasBlocks: bool,
    hasTransactionsStatus: bool,
    hasUnsupportedOptions: bool)

  function NamesOf<F>(table: Named<F>): (names: seq<string>)
    ensures |names| == |table| && forall i :: 0 <= i < |table| ==> names[i] == table[i].0
  {
    seq(|table|, i requires 0 <= i < |table| => table[i].0)
  }

  function DecodeSet(b58: Base58, keys: seq<string>): set<Bytes> {
    set s | s in keys && b58(s).Some? :: b58(s).value
  }

  function CompileTx(b58: Base58, f: TransactionsFilter): CompiledTxFilter {
    CompiledTxFilter(
      f.vote,
      f.failed,
      if f.signature.Some? then b58(f.signature.value) else None,
      DecodeSet(b58, f.accountInclude),
      DecodeSet(b58, f.accountExclude),
      DecodeSet(b58, f.accountRequired))
  }

  function CompileTable(b58: Base58, table: Named<TransactionsFilter>): Named<CompiledTxFilter> {
    seq(|table|, i requires 0 <= i < |table| => (table[i].0, CompileTx(b58, table[i].1)))
  }

  function FromRequest(b58: Base58, req: SubscribeRequest): CompiledFilters {
    CompiledFilters(
      CompileTable(b58, req.transactions),
      NamesOf(req.slots),
      req.blocksMeta,
      NamesOf(req.entry),
      NamesOf(req.blockFooter),
      req.accounts != [],
      req.blocks != [],
      req.transactionsStatus != [],
      || (exists t :: t in req.transactions && (t.1.hasCuckooFilter || t.1.hasTokenAccounts))
      || (exists e :: e in req.entry && e.1.includeUpdateParent == Some(true))
      || (exists f :: f in req.blockFooter && f.1.includeCertificates == Some(true)))
  }

  predicate NeedsDirectConnection(c: CompiledFilters) {
    c.hasAccounts || c.hasBlocks || c.hasTransactionsStatus || c.hasUnsupportedOptions
  }

  predicate HasMuxSubscriptions(c: CompiledFilters) {
    c.transactions != [] || c.slots != [] || c.blocksMeta != [] || c.entry != [] || c.blockFooter != []
  }

  /** Does `subscribe` serve this request from the multiplexer? */
  predicate RoutedToMux(c: CompiledFilters) {
    !NeedsDirectConnection(c) && HasMuxSubscriptions(c)
  }

  function MessageKeys(info: TransactionInfo): seq<Bytes> {
    if info.transaction.Some? && info.transaction.value.message.Some?
    then info.transaction.value.message.value.accountKeys else []
  }

  function AccountKeys(info: TransactionInfo): seq<Bytes> {
    MessageKeys(info) +
    (if info.meta.Some?
     then info.meta.value.loadedWritableAddresses + info.meta.value.loadedReadonlyAddresses else [])
  }

  method CollectTxAccountKeys(info: TransactionInfo) returns (keys: seq<Bytes>)
    ensures keys == AccountKeys(info)
  {
    keys := [];
    if info.transaction.Some? && info.transaction.value.message.Some? {
      var ks := info.transaction.value.message.value.accountKeys;
      for i := 0 to |ks|
        invariant keys == ks[..i]
      {
        keys := keys + [ks[i]];
      }
    }
    if info.meta.Some? {
      var ws := info.meta.value.loadedWritableAddresses;
      for i := 0 to |ws|
        invariant keys == MessageKeys(info) + ws[..i]
      {
        keys := keys + [ws[i]];
      }
      var rs := info.meta.value.loadedReadonlyAddresses;
      for i := 0 to |rs|
        invariant keys == MessageKeys(info) + ws + rs[..i]
      {
        keys := keys + [rs[i]];
      }
    }
  }

  function IsFailed(info: TransactionInfo): bool {
    info.meta.Some? && info.meta.value.failed
  }

  predicate MatchesTxFilter(f: CompiledTxFilter, info: TransactionInfo, keys: seq<Bytes>) {
    if f.vote.Some? && f.vote.value != info.isVote then false
    else if f.failed.Some? && f.failed.value != IsFailed(info) then false
    else if f.signature.Some? && f.signature.value != info.signature then false
    else if f.accountInclude != {} && !(exists k :: k in keys && k in f.accountInclude) then false
    else if f.accountExclude != {} && (exists k :: k in keys && k in f.accountExclude) then false
    else if f.accountRequired != {} && !(forall r :: r in f.accountRequired ==> r in keys) then false
    else true
  }

  function MatchingNames(table: Named<CompiledTxFilter>, info: TransactionInfo): seq<string> {
    if table == [] then []
    else
      var n := |table| - 1;
      MatchingNames(table[..n], info) +
      (if MatchesTxFilter(table[n].1, info, AccountKeys(info)) then [table[n].0] else [])
  }

  function SomeNames(names: seq<string>): Option<seq<string>> {
    if names == [] then None else Some(names)
  }

  method MatchTransaction(c: CompiledFilters, tx: Option<TransactionInfo>) returns (r: Option<seq<string>>)
    ensures r == if tx.None? then None else SomeNames(MatchingNames(c.transactions, tx.value))
  {
    if c.transactions == [] || tx.None? {
      return None;
    }
    var keys := CollectTxAccountKeys(tx.value);
    var matched := [];
    for i := 0 to |c.transactions|
      invariant matched == MatchingNames(c.transactions[..i], tx.value)
    {
      assert c.transactions[..i + 1][..i] == c.transactions[..i];
      if MatchesTxFilter(c.transactions[i].1, tx.value, keys) {
        matched := matched + [c.transactions[i].0];
      }
    }
    assert c.transactions[..|c.transactions|] == c.transactions;
    return SomeNames(matched);
  }

  /** The names of the filters an update matches, or None when the client is not to see it. */
  function MatchUpdate(c: CompiledFilters, u: SubscribeUpdate): Option<seq<string>> {
    if u.payload.None? then None
    else match u.payload.value
      case TransactionUpdate(_, info, _) =>
        if info.None? then None else SomeNames(MatchingNames(c.transactions, info.value))
      case SlotUpdate(_, _, _) => SomeNames(c.slots)
      case BlockMetaUpdate(_, _, _) => SomeNames(c.blocksMeta)
      case EntryUpdate(_, _, _) => SomeNames(c.entry)
      case BlockFooterUpdate(_, _, _) => SomeNames(c.blockFooter)
      case Ping => Some([])
      case Pong(_) => Some([])
      case _ => None
  }

  // ---------------------------------------------------------------------------------------------
  // What a transaction filter asks for, in the client's own terms
  // ---------------------------------------------------------------------------------------------

  /** The account is among the message's keys or was loaded from a lookup table, to be written or only read. */
  ghost predicate Involves(info: TransactionInfo, key: Bytes) {
    || (info.transaction.Some? && info.transaction.value.message.Some? && key in info.transaction.value.message.value.accountKeys)
    || (info.meta.Some? && (key in info.meta.value.loadedWritableAddresses || key in info.meta.value.loadedReadonlyAddresses))
  }

  lemma AccountKeysExact(info: TransactionInfo)
    ensures forall key :: key in AccountKeys(info) <==> Involves(info, key)
  {
  }

  /** The string names an account the transaction touches. */
  ghost predicate Touches(b58: Base58, s: string, info: TransactionInfo) {
    b58(s).Some? && Involves(info, b58(s).value)
  }

  ghost predicate Wanted(b58: Base58, f: TransactionsFilter, info: TransactionInfo) {
    && (f.vote.Some? ==> f.vote.value == info.isVote)
    && (f.failed.Some? ==> (f.failed.value <==> info.meta.Some? && info.meta.value.failed))
    && (f.signature.Some? ==> b58(f.signature.value) == Some(info.signature))
    && (f.accountInclude != [] ==> exists s :: s in f.accountInclude && Touches(b58, s, info))
    && (forall s :: s in f.accountExclude ==> !Touches(b58, s, info))
    && (forall s :: s in f.accountRequired ==> Touches(b58, s, info))
  }

  /** Nothing the filter insists on was lost in decoding. Exclusions never are insisted on. */
  ghost predicate Decodable(b58: Base58, f: TransactionsFilter) {
    && (f.signature.Some? ==> b58(f.signature.value).Some?)
    && (f.accountInclude != [] ==> exists s :: s in f.accountInclude && b58(s).Some?)
    && (forall s :: s in f.accountRequired ==> b58(s).Some?)
  }

  lemma IncludeMeaning(b58: Base58, keys: seq<string>, info: TransactionInfo)
    ensures (exists k :: k in AccountKeys(info) && k in DecodeSet(b58, keys)) <==>
            (exists s :: s in keys && Touches(b58, s, info))
    ensures DecodeSet(b58, keys) != {} <==> exists s :: s in keys && b58(s).Some?
  {
    AccountKeysExact(info);
    if s :| s in keys && Touches(b58, s, info) {
      assert b58(s).value in DecodeSet(b58, keys);
    }
    if s :| s in keys && b58(s).Some? {
      assert b58(s).value in DecodeSet(b58, keys);
    }
  }

  lemma RequiredMeaning(b58: Base58, keys: seq<string>, info: TransactionInfo)
    ensures (forall s :: s in keys ==> Touches(b58, s, info)) <==>
            && (forall s :: s in keys ==> b58(s).Some?)
            && (forall r :: r in DecodeSet(b58, keys) ==> r in AccountKeys(info))
  {
    AccountKeysExact(info);
    forall s | s in keys && b58(s).Some? && forall r :: r in DecodeSet(b58, keys) ==> r in AccountKeys(info)
      ensures Touches(b58, s, info)
    {
      assert b58(s).value in DecodeSet(b58, keys);
    }
  }

  /**
   Exactly what the compiled filter means: it matches what the client asked for, except that a filter
   whose signature, whole include list or any required account does not decode asks for nothing, yet
   compiles to a wider filter that may match.
   */
  lemma CompiledFilterMeaning(b58: Base58, f: TransactionsFilter, info: TransactionInfo)
    ensures Wanted(b58, f, info) <==>
            MatchesTxFilter(CompileTx(b58, f), info, AccountKeys(info)) && Decodable(b58, f)
  {
    IncludeMeaning(b58, f.accountInclude, info);
    IncludeMeaning(b58, f.accountExclude, info);
    RequiredMeaning(b58, f.accountRequired, info);
  }

  /** One undecodable include string turns "this account only" into "everything". */
  lemma UndecodableIncludeMatchesAll(b58: Base58, bad: string, info: TransactionInfo)
    requires b58(bad).None?
    ensures var f := TransactionsFilter(None, None, None, [bad], [], [], false, false);
            MatchesTxFilter(CompileTx(b58, f), info, AccountKeys(info)) && !Wanted(b58, f, info)
  {
    var f := TransactionsFilter(None, None, None, [bad], [], [], false, false);
    IncludeMeaning(b58, f.accountInclude, info);
    assert forall s :: s in f.accountInclude ==> s == bad;
  }

  ghost function WantedNames(b58: Base58, table: Named<TransactionsFilter>, info: TransactionInfo): seq<string> {
    if table == [] then []
    else
      var n := |table| - 1;
      WantedNames(b58, table[..n], info) + (if Wanted(b58, table[n].1, info) then [table[n].0] else [])
  }

  lemma {:induction false} NamesExact(b58: Base58, table: Named<TransactionsFilter>, info: TransactionInfo)
    requires forall t :: t in table ==> Decodable(b58, t.1)
    ensures MatchingNames(CompileTable(b58, table), info) == WantedNames(b58, table, info)
  {
    if table != [] {
      var n := |table| - 1;
      NamesExact(b58, table[..n], info);
      CompiledFilterMeaning(b58, table[n].1, info);
      assert table[n] in table;
      assert CompileTable(b58, table)[..n] == CompileTable(b58, table[..n]);
    }
  }

  /** A transaction carries exactly the names of the filters that ask for it. */
  lemma TransactionNamesExact(b58: Base58, req: SubscribeRequest, u: SubscribeUpdate)
    requires u.payload.Some? && u.payload.value.TransactionUpdate? && u.payload.value.info.Some?
    requires forall t :: t in req.transactions ==> Decodable(b58, t.1)
    ensures MatchUpdate(FromRequest(b58, req), u) ==
            SomeNames(WantedNames(b58, req.transactions, u.payload.value.info.value))
  {
    NamesExact(b58, req.transactions, u.payload.value.info.value);
  }

  // ---------------------------------------------------------------------------------------------
  // Routing and coverage
  // ---------------------------------------------------------------------------------------------

  /** Which further transactions the upstream's cuckoo and token-account options select: not evaluated by the proxy. */
  type Extension = (TransactionsFilter, TransactionInfo) -> bool

  ghost predicate Selects(b58: Base58, more: Extension, f: TransactionsFilter, info: TransactionInfo) {
    Wanted(b58, f, info) || ((f.hasCuckooFilter || f.hasTokenAccounts) && more(f, info))
  }

  /** The first of the slot statuses between the commitment levels (first shred, completed, created bank, dead). */
  const INTERSLOT: int := 3

  predicate Interslot(p: Payload) {
    p.SlotUpdate? && p.status >= INTERSLOT
  }

  ghost predicate WantsInterslot(req: SubscribeRequest) {
    exists f :: f in req.slots && f.1.interslotUpdates == Some(true)
  }

  /** What a request asks its upstream for, payload by payload; pings and pongs are not asked for. */
  ghost predicate AsksFor(b58: Base58, more: Extension, req: SubscribeRequest, p: Payload) {
    match p
    case TransactionUpdate(_, info, _) =>
      info.Some? && exists t :: t in req.transactions && Selects(b58, more, t.1, info.value)
    case TransactionStatusUpdate(_, _) => req.transactionsStatus != []
    case SlotUpdate(_, _, _) => req.slots != [] && (Interslot(p) ==> WantsInterslot(req))
    case BlockMetaUpdate(_, _, _) => req.blocksMeta != []
    case EntryUpdate(_, _, _) => req.entry != []
    case BlockFooterUpdate(_, _, certificates) =>
      req.blockFooter != [] &&
      (certificates ==> exists f :: f in req.blockFooter && f.1.includeCertificates == Some(true))
    case AccountUpdate(_, _) => req.accounts != []
    case BlockUpdate(_) => req.blocks != []
    case EntryUpdateParent(_) => exists e :: e in req.entry && e.1.includeUpdateParent == Some(true)
    case Ping => false
    case Pong(_) => false
  }

  function MuxSubscribeRequest(fromSlot: Option<nat>): (req: SubscribeRequest)
    ensures req.fromSlot == fromSlot && req.ping.None?
  {
    SubscribeRequest(
      [],
      [("mux_slot", SlotsFilter(None, Some(false)))],
      [("mux_tx", TransactionsFilter(None, None, None, [], [], [], false, false))],
      [],
      [],
      ["mux_blocks_meta"],
      [("mux_entry", EntryFilter(None))],
      [("mux_block_footer", BlockFooterFilter(None))],
      None,
      fromSlot)
  }

  lemma {:induction false} MatchSome(table: Named<CompiledTxFilter>, info: TransactionInfo, i: nat)
    requires i < |table| && MatchesTxFilter(table[i].1, info, AccountKeys(info))
    ensures MatchingNames(table, info) != []
  {
    if i < |table| - 1 {
      MatchSome(table[..|table| - 1], info, i);
    }
  }

  /** What a client asks for, its compiled filters let through. */
  lemma AskedIsLetThrough(b58: Base58, more: Extension, req: SubscribeRequest, u: SubscribeUpdate)
    requires RoutedToMux(FromRequest(b58, req))
    requires u.payload.Some? && AsksFor(b58, more, req, u.payload.value)
    ensures MatchUpdate(FromRequest(b58, req), u).Some?
  {
    if u.payload.value.TransactionUpdate? {
      var info := u.payload.value.info.value;
      var t :| t in req.transactions && Selects(b58, more, t.1, info);
      var i :| 0 <= i < |req.transactions| && req.transactions[i] == t;
      CompiledFilterMeaning(b58, t.1, info);
      MatchSome(FromRequest(b58, req).transactions, info, i);
    }
  }

  lemma MuxAsksForTransactions(b58: Base58, more: Extension, fromSlot: Option<nat>, p: Payload)
    requires p.TransactionUpdate? && p.info.Some?
    ensures AsksFor(b58, more, MuxSubscribeRequest(fromSlot), p)
  {
    var own := MuxSubscribeRequest(fromSlot).transactions[0];
    assert own in MuxSubscribeRequest(fromSlot).transactions && Selects(b58, more, own.1, p.info.value);
  }

  /** Of what a mux-routed request asks for, the multiplexer asks for exactly what is no interslot status. */
  lemma MuxAsksToo(b58: Base58, more: Extension, req: SubscribeRequest, fromSlot: Option<nat>, p: Payload)
    requires RoutedToMux(FromRequest(b58, req)) && AsksFor(b58, more, req, p)
    ensures AsksFor(b58, more, MuxSubscribeRequest(fromSlot), p) <==> !(p.SlotUpdate? && p.status >= 3)
  {
    if p.TransactionUpdate? {
      MuxAsksForTransactions(b58, more, fromSlot, p);
    }
  }

  /**
   A request routed to the multiplexer loses nothing by it if and only if no slots filter of it turns
   interslot updates on: the multiplexer's own subscription leaves them off, and routing does not look.
   */
  lemma MuxCoverage(b58: Base58, more: Extension, req: SubscribeRequest, fromSlot: Option<nat>)
    requires RoutedToMux(FromRequest(b58, req))
    ensures (forall p :: AsksFor(b58, more, req, p) ==> AsksFor(b58, more, MuxSubscribeRequest(fromSlot), p)) <==>
            !WantsInterslot(req)
  {
    forall p | AsksFor(b58, more, req, p) && !WantsInterslot(req)
      ensures AsksFor(b58, more, MuxSubscribeRequest(fromSlot), p)
    {
      MuxAsksToo(b58, more, req, fromSlot, p);
    }
    if WantsInterslot(req) {
      var p := SlotUpdate(0, None, INTERSLOT);
      assert AsksFor(b58, more, req, p);
      MuxAsksToo(b58, more, req, fromSlot, p);
    }
  }

  /** Such a request is routed to the multiplexer all the same. */
  lemma InterslotRoutedToMux(b58: Base58, name: string, commitment: Option<bool>, fromSlot: Option<nat>)
    ensures var req := SubscribeRequest([], [(name, SlotsFilter(commitment, Some(true)))], [], [], [], [], [], [], None, fromSlot);
            RoutedToMux(FromRequest(b58, req)) && WantsInterslot(req)
  {
    var f := (name, SlotsFilter(commitment, Some(true)));
    assert f in [f];
  }

  /** Which requests the multiplexer serves. */
  lemma RoutingExact(b58: Base58, req: SubscribeRequest)
    ensures RoutedToMux(FromRequest(b58, req)) <==>
            && req.accounts == [] && req.blocks == [] && req.transactionsStatus == []
            && (forall t :: t in req.transactions ==> !t.1.hasCuckooFilter && !t.1.hasTokenAccounts)
            && (forall e :: e in req.entry ==> e.1.includeUpdateParent != Some(true))
            && (forall f :: f in req.blockFooter ==> f.1.includeCertificates != Some(true))
            && |req.transactions| + |req.slots| + |req.blocksMeta| + |req.entry| + |req.blockFooter| > 0
  {
  }

  /** The names in the client's own tables that an update belongs to. */
  ghost function OwnNames(b58: Base58, req: SubscribeRequest, p: Payload): seq<string> {
    match p
    case TransactionUpdate(_, info, _) => if info.None? then [] else WantedNames(b58, req.transactions, info.value)
    case SlotUpdate(_, _, _) => NamesOf(req.slots)
    case BlockMetaUpdate(_, _, _) => req.blocksMeta
    case EntryUpdate(_, _, _) => NamesOf(req.entry)
    case BlockFooterUpdate(_, _, _) => NamesOf(req.blockFooter)
    case _ => []
  }

  lemma {:induction false} WantedSome(b58: Base58, table: Named<TransactionsFilter>, info: TransactionInfo)
    ensures WantedNames(b58, table, info) != [] <==> exists t :: t in table && Wanted(b58, t.1, info)
  {
    if table != [] {
      var n := |table| - 1;
      WantedSome(b58, table[..n], info);
      assert table == table[..n] + [table[n]];
    }
  }

  ghost predicate AllDecodable(b58: Base58, req: SubscribeRequest) {
    forall t :: t in req.transactions ==> Decodable(b58, t.1)
  }

  /** Let through without being asked for: statuses and certificates the client's own tables leave off. */
  ghost predicate Unasked(req: SubscribeRequest, p: Payload) {
    || (Interslot(p) && req.slots != [])
    || (p.BlockFooterUpdate? && p.certificates && req.blockFooter != [])
  }

  lemma TransactionsLetThrough(b58: Base58, more: Extension, req: SubscribeRequest, u: SubscribeUpdate)
    requires RoutedToMux(FromRequest(b58, req)) && AllDecodable(b58, req)
    requires u.payload.Some? && u.payload.value.TransactionUpdate?
    ensures MatchUpdate(FromRequest(b58, req), u).Some? <==> AsksFor(b58, more, req, u.payload.value)
    ensures MatchUpdate(FromRequest(b58, req), u) == SomeNames(OwnNames(b58, req, u.payload.value))
  {
    var info := u.payload.value.info;
    if info.Some? {
      TransactionNamesExact(b58, req, u);
      WantedSome(b58, req.transactions, info.value);
    }
  }

  /**
   With decodable strings, a client of the multiplexer is let through exactly what it asks for, plus interslot
   statuses and certificates of kinds it subscribes to; and each update carries the names of its own tables.
   */
  lemma LetThroughExactly(b58: Base58, more: Extension, req: SubscribeRequest, u: SubscribeUpdate)
    requires RoutedToMux(FromRequest(b58, req)) && AllDecodable(b58, req)
    requires u.payload.Some? && !u.payload.value.Ping? && !u.payload.value.Pong?
    ensures MatchUpdate(FromRequest(b58, req), u).Some? <==>
            AsksFor(b58, more, req, u.payload.value) || Unasked(req, u.payload.value)
    ensures MatchUpdate(FromRequest(b58, req), u) == SomeNames(OwnNames(b58, req, u.payload.value))
  {
    RoutingExact(b58, req);
    if u.payload.value.TransactionUpdate? {
      TransactionsLetThrough(b58, more, req, u);
    }
  }

  /** Of what compiled filters let through, pings and pongs aside, the multiplexer asks for exactly what needs no option it leaves off. */
  lemma MatchedIsReceived(b58: Base58, more: Extension, c: CompiledFilters, fromSlot: Option<nat>, u: SubscribeUpdate)
    requires MatchUpdate(c, u).Some? && !u.payload.value.Ping? && !IsPong(u)
    ensures AsksFor(b58, more, MuxSubscribeRequest(fromSlot), u.payload.value) <==>
            !Interslot(u.payload.value) && !(u.payload.value.BlockFooterUpdate? && u.payload.value.certificates)
  {
    if u.payload.value.TransactionUpdate? {
      MuxAsksForTransactions(b58, more, fromSlot, u.payload.value);
    }
  }
}
