/** Model of dlc-manager/src/chain_monitor.rs. A transaction stands for its own id. */
module ChainMonitoring {

  import opened Results
  import opened ChannelTypes

  datatype RevokedKind = RevokedBuffer | RevokedSettle | RevokedSplit

  datatype TxType =
    | Revoked(updateIdx: nat, ownSig: AdaptorSig, isOffer: bool, kind: RevokedKind)
    | WatchedBuffer
    | CollaborativeClose
    | WatchedSplit
    | WatchedSettle
    | Cet
    | WatchedSettle2(isOffer: bool)

  datatype ChannelInfo = ChannelInfo(channelId: nat, txType: TxType)

  datatype WatchState =
    | Registered(info: ChannelInfo)
    | Confirmed(info: ChannelInfo, spender: Tx)

  /** The outpoint with index 0 of a transaction stands for that transaction. */
  datatype Watches = Watches(txs: map<Tx, WatchState>, txos: map<Tx, WatchState>)

  function Watching(w: Watches, tx: Tx, info: ChannelInfo): Watches {
    var added := w.(txs := w.txs[tx := Registered(info)]);
    if info.txType == WatchedBuffer then added.(txos := w.txos[tx := Registered(ChannelInfo(info.channelId, Cet))])
    else added
  }

  /** A first confirmation is recorded, later ones change nothing. */
  function Confirm(state: WatchState, spender: Tx): WatchState {
    if state.Registered? then WatchState.Confirmed(state.info, spender) else state
  }

  function TxConfirmed(w: Watches, tx: Tx): Watches {
    if tx in w.txs then w.(txs := w.txs[tx := Confirm(w.txs[tx], tx)]) else w
  }

  function TxoConfirmed(w: Watches, txo: Tx, spender: Tx): Watches {
    if txo in w.txos then w.(txos := w.txos[txo := Confirm(w.txos[txo], spender)]) else w
  }

  function Without(watched: map<Tx, WatchState>, channelId: nat): map<Tx, WatchState> {
    map tx | tx in watched && watched[tx].info.channelId != channelId :: watched[tx]
  }

  function Cleanup(w: Watches, channelId: nat): Watches {
    Watches(Without(w.txs, channelId), Without(w.txos, channelId))
  }

  function NotWatching(w: Watches, tx: Tx): Watches {
    w.(txs := w.txs - {tx})
  }

  /** A revoked buffer transaction of the channel is being watched. */
  predicate RevokedBufferOf(w: Watches, tx: Tx, channelId: nat) {
    && tx in w.txs && w.txs[tx].info.channelId == channelId
    && w.txs[tx].info.txType.Revoked? && w.txs[tx].info.txType.kind == RevokedBuffer
  }

  /** It can be told who offered the last settlement. */
  ghost predicate SettlementKnown(w: Watches, channelId: nat) {
    exists tx :: RevokedBufferOf(w, tx, channelId)
  }

  class ChainMonitor {
    var watchedTx: map<Tx, WatchState>
    var watchedTxo: map<Tx, WatchState>

    function Contents(): Watches
      reads this
    {
      Watches(watchedTx, watchedTxo)
    }

    constructor ()
      ensures Contents() == Watches(map[], map[])
    {
      watchedTx := map[];
      watchedTxo := map[];
    }

    method AddTx(tx: Tx, info: ChannelInfo)
      modifies this
      ensures Contents() == Watching(old(Contents()), tx, info)
    {
      watchedTx := watchedTx[tx := Registered(info)];
      if info.txType == WatchedBuffer {
        AddTxo(tx, ChannelInfo(info.channelId, Cet));
      }
    }

    method AddTxo(txo: Tx, info: ChannelInfo)
      modifies this`watchedTxo
      ensures watchedTxo == old(watchedTxo)[txo := Registered(info)]
    {
      watchedTxo := watchedTxo[txo := Registered(info)];
    }

    method CleanupChannel(channelId: nat)
      modifies this
      ensures Contents() == Cleanup(old(Contents()), channelId)
    {
      watchedTx := Without(watchedTx, channelId);
      watchedTxo := Without(watchedTxo, channelId);
    }

    method RemoveTx(tx: Tx)
      modifies this`watchedTx
      ensures Contents() == NotWatching(old(Contents()), tx)
    {
      watchedTx := watchedTx - {tx};
    }

    method ConfirmTx(tx: Tx)
      modifies this`watchedTx
      ensures Contents() == TxConfirmed(old(Contents()), tx)
    {
      if tx in watchedTx {
        watchedTx := watchedTx[tx := Confirm(watchedTx[tx], tx)];
      }
    }

    method ConfirmTxo(txo: Tx, spender: Tx)
      modifies this`watchedTxo
      ensures Contents() == TxoConfirmed(old(Contents()), txo, spender)
    {
      if txo in watchedTxo {
        watchedTxo := watchedTxo[txo := Confirm(watchedTxo[txo], spender)];
      }
    }

    /** Looks at the watched transactions in no particular order for a revoked
        buffer transaction of the channel. */
    method DidWeOfferLastChannelSettlement(channelId: nat) returns (r: Option<bool>)
      ensures r.Some? <==> SettlementKnown(Contents(), channelId)
      ensures r.Some? ==> exists tx :: RevokedBufferOf(Contents(), tx, channelId)
                                       && Contents().txs[tx].info.txType.isOffer == r.value
    {
      var remaining := watchedTx.Keys;
      while remaining != {}
        invariant remaining <= watchedTx.Keys
        invariant forall tx | tx in watchedTx.Keys - remaining :: !RevokedBufferOf(Contents(), tx, channelId)
        decreases |remaining|
      {
        var tx :| tx in remaining;
        if RevokedBufferOf(Contents(), tx, channelId) {
          return Some(watchedTx[tx].info.txType.isOffer);
        }
        remaining := remaining - {tx};
      }
      assert forall tx :: RevokedBufferOf(Contents(), tx, channelId) ==> tx in watchedTx.Keys - remaining;
      return None;
    }
  }

  /** The first confirmation of a watched transaction or output is recorded, and later
      ones do not displace it. */
  lemma FirstConfirmationWins(w: Watches, tx: Tx, first: Tx, second: Tx)
    ensures var once := TxoConfirmed(w, tx, first);
            && TxoConfirmed(once, tx, second) == once && once.txs == w.txs && once.txos.Keys == w.txos.Keys
            && (tx in w.txos ==>
                  once.txos[tx] == if w.txos[tx].Registered? then WatchState.Confirmed(w.txos[tx].info, first)
                                   else w.txos[tx])
    ensures var once := TxConfirmed(w, tx);
            && TxConfirmed(once, tx) == once && once.txos == w.txos && once.txs.Keys == w.txs.Keys
            && (tx in w.txs ==>
                  once.txs[tx] == if w.txs[tx].Registered? then WatchState.Confirmed(w.txs[tx].info, tx) else w.txs[tx])
  {
    if tx in w.txos {
      var once := TxoConfirmed(w, tx, first);
      assert once.txos[tx := once.txos[tx]] == once.txos;
    }
    if tx in w.txs {
      var once := TxConfirmed(w, tx);
      assert once.txs[tx := once.txs[tx]] == once.txs;
    }
  }

  /** Only a revoked buffer transaction tells who offered the last settlement: what is
      watched besides is known exactly if it is one, or one stays watched. */
  lemma KnownAfterWatching(w: Watches, tx: Tx, info: ChannelInfo, channelId: nat)
    ensures SettlementKnown(Watching(w, tx, info), channelId) <==>
            || (info.channelId == channelId && info.txType.Revoked? && info.txType.kind.RevokedBuffer?)
            || exists other :: other != tx && RevokedBufferOf(w, other, channelId)
  {
    var after := Watching(w, tx, info);
    forall other | other != tx
      ensures RevokedBufferOf(after, other, channelId) <==> RevokedBufferOf(w, other, channelId)
    {
    }
    assert RevokedBufferOf(after, tx, channelId) <==>
           (info.channelId == channelId && info.txType.Revoked? && info.txType.kind.RevokedBuffer?);
  }

  /** One transaction is no longer watched, and all else still is. */
  lemma RemovedIsExact(w: Watches, removed: Tx, tx: Tx)
    ensures tx in NotWatching(w, removed).txs <==> tx in w.txs && tx != removed
    ensures tx in NotWatching(w, removed).txs ==> NotWatching(w, removed).txs[tx] == w.txs[tx]
    ensures NotWatching(w, removed).txos == w.txos
  {
  }

  /** After the clean-up nothing of the channel is watched and all else still is. */
  lemma CleanupIsExact(w: Watches, channelId: nat, tx: Tx)
    ensures tx in Cleanup(w, channelId).txs <==> tx in w.txs && w.txs[tx].info.channelId != channelId
    ensures tx in Cleanup(w, channelId).txos <==> tx in w.txos && w.txos[tx].info.channelId != channelId
    ensures tx in Cleanup(w, channelId).txs ==> Cleanup(w, channelId).txs[tx] == w.txs[tx]
    ensures Cleanup(Cleanup(w, channelId), channelId) == Cleanup(w, channelId)
  {
  }
}
