/** Bet placement in the bets service (bets_service/app/main.py): a saga over three services.
    It checks the balance with the user service, reads the match's odds from the matches
    service, stores the bet, debits the wallet through the user service, deletes the bet again
    if the debit is refused, and finally records the debit as a transaction.

    The other services' databases are the tables their own crud modules act on. Each HTTP call
    has a transport outcome, passed in as a parameter: it is delivered and handled as that
    service's model says, rejected with an error status before anything is done, or it never
    gets an answer and the client raises. */
module BetsApi {
  import opened Wrappers
  import opened Tables
  import opened Exceptions
  import opened UserCrud
  import opened MatchesCrud
  import opened BetsCrud

  /** What happened to one HTTP request to another service. */
  datatype Transport =
    | Delivered
    | Rejected
    | Unreachable

  /** The transport outcomes of the saga's three calls, in the order they are made. */
  datatype Network = Network(walletRead: Transport, matchRead: Transport, walletWrite: Transport)

  const InsufficientFundsMessage: string := "Insufficient funds"
  const MatchNotFoundMessage: string := "Match not found"
  const WalletUpdateFailedMessage: string := "Failed to update wallet balance"
  const BetPlacedKind: string := "bet_placed"

  /** What the HTTP client raises when a request never gets an answer. */
  const TransportError: Exception := OtherException("ConnectError", None, "All connection attempts failed")

  /** The answer the user service's wallet read is evidently meant to give: 200 when the
      request is delivered and the user has a wallet (without one the response cannot be
      serialised, which is a 500). As written, the endpoint reads the lazily loaded
      `user.wallet` inside an async session, which raises; its 500 is the `Rejected` case. */
  function WalletReadReply(wallets: Table<Wallet>, userId: int, t: Transport): (r: WalletReply)
    reads wallets
    requires wallets.Valid()
    ensures r.WalletFound? <==> t.Delivered? && WalletOf(wallets, userId).Some?
    ensures r.WalletFound? ==> r.balance == WalletOf(wallets, userId).value.data.balance
  {
    var wallet := WalletOf(wallets, userId);
    if t.Delivered? && wallet.Some? then WalletFound(wallet.value.data.balance) else WalletError
  }

  /** The matches service's answer to the match read: the match with its odds on 200, `None`
      for any other status. */
  function MatchReadReply(matches: Table<Match>, odds: Table<Odds>, matchId: int, t: Transport)
    : (r: Option<MatchView>)
    reads matches, odds
    requires matches.Valid() && odds.Valid()
    ensures r.Some? <==> t.Delivered? && matchId in matches.rows
    ensures r.Some? ==> r.value == GetMatch(matches, odds, matchId).value
  {
    if t.Delivered? then GetMatch(matches, odds, matchId) else None
  }

  /** `match["odds"][bet.outcome]`: the price of one of the three outcomes; a match without
      odds cannot be indexed, and any other outcome name is missing from the odds object. */
  function OutcomeOdds(odds: Option<Row<Odds>>, outcome: string): (r: Result<int, Exception>)
    ensures r.Ok? <==> odds.Some? && outcome in {"win_home", "draw", "win_away"}
    ensures r.Ok? && outcome == "win_home" ==> r.value == odds.value.data.winHome
    ensures r.Ok? && outcome == "draw" ==> r.value == odds.value.data.draw
    ensures r.Ok? && outcome == "win_away" ==> r.value == odds.value.data.winAway
  {
    match odds
    case None => Err(OtherException("TypeError", None, "'NoneType' object is not subscriptable"))
    case Some(o) =>
      if outcome == "win_home" then Ok(o.data.winHome)
      else if outcome == "draw" then Ok(o.data.draw)
      else if outcome == "win_away" then Ok(o.data.winAway)
      else Err(OtherException("KeyError", None, "'" + outcome + "'"))
  }

  /** The outcome of everything `create_bet` does before it stores the bet: the price to bet
      at, or the exception raised. */
  function Admission(wallets: Table<Wallet>, matches: Table<Match>, odds: Table<Odds>, userId: int,
                     bet: BetCreate, net: Network): (r: Result<int, Exception>)
    reads wallets, matches, odds
    requires wallets.Valid() && matches.Valid() && odds.Valid()
    ensures r == Err(HttpException(400, InsufficientFundsMessage)) <==>
              !net.walletRead.Unreachable? && !VerifyUserBalance(WalletReadReply(wallets, userId, net.walletRead), bet.amountStaked)
    ensures r.Ok? ==> net.walletRead.Delivered? && net.matchRead.Delivered?
    ensures r.Ok? ==> WalletOf(wallets, userId).Some? && WalletOf(wallets, userId).value.data.balance >= bet.amountStaked
    ensures r.Ok? ==> bet.matchId in matches.rows && r == OutcomeOdds(OddsOf(odds, bet.matchId), bet.outcome)
    ensures r == Err(HttpException(404, MatchNotFoundMessage)) <==>
              VerifyUserBalance(WalletReadReply(wallets, userId, net.walletRead), bet.amountStaked) &&
              !net.matchRead.Unreachable? && MatchReadReply(matches, odds, bet.matchId, net.matchRead).None?
  {
    if net.walletRead.Unreachable? then Err(TransportError)
    else if !VerifyUserBalance(WalletReadReply(wallets, userId, net.walletRead), bet.amountStaked) then
      Err(HttpException(400, InsufficientFundsMessage))
    else if net.matchRead.Unreachable? then Err(TransportError)
    else
      var found := MatchReadReply(matches, odds, bet.matchId, net.matchRead);
      if found.None? then Err(HttpException(404, MatchNotFoundMessage))
      else OutcomeOdds(found.value.odds, bet.outcome)
  }

  /** A wallet read answered with an error status refuses the bet with 400, whatever the
      balance: as written, the wallet read always answers so. */
  lemma RejectedWalletReadRefuses(wallets: Table<Wallet>, matches: Table<Match>, odds: Table<Odds>,
                                  userId: int, bet: BetCreate, net: Network)
    requires wallets.Valid() && matches.Valid() && odds.Valid()
    requires net.walletRead.Rejected?
    ensures Admission(wallets, matches, odds, userId, bet, net) == Err(HttpException(400, InsufficientFundsMessage))
  {
    assert WalletReadReply(wallets, userId, net.walletRead) == WalletError;
  }

  /** The transaction that records the debit of a placed bet. The wallet id written is the
      user's id. */
  function DebitRecord(userId: int, stake: int, betId: int): (r: Transaction)
    ensures r.amount == -stake && r.kind == BetPlacedKind
    ensures r.walletId == userId && r.relatedBetId == Some(betId)
  {
    Transaction(userId, -stake, BetPlacedKind, Some(betId))
  }

  /** `PATCH /users/me/wallet` as the saga sees it: the credited wallet on 200, `None` for any
      other status. A delivered request is handled by the intended balance update
      `CreditWallet`; a rejected one changes nothing. As written, `update_wallet_balance` raises
      on every existing wallet, and the 500 it answers is the `Rejected` case. */
  method PatchWallet(wallets: Table<Wallet>, userId: int, amount: int, t: Transport) returns (r: Option<Row<Wallet>>)
    requires wallets.Valid()
    modifies wallets
    ensures wallets.Valid()
    ensures r.Some? <==> t.Delivered? && old(WalletOf(wallets, userId)).Some?
    ensures r.None? ==> unchanged(wallets)
    ensures r.Some? ==> r.value == Row(old(WalletOf(wallets, userId)).value.id, Credit(old(WalletOf(wallets, userId)).value.data, amount))
    ensures r.Some? ==> wallets.rows == old(wallets.rows)[r.value.id := r.value.data] && wallets.order == old(wallets.order)
  {
    r := None;
    if t.Delivered? {
      r := CreditWallet(wallets, userId, amount);
    }
  }

  /** `db.delete(db_bet)` on the bet just stored: the bets table is as it was before. */
  method RollBackBet(bets: Table<Bet>, id: int, ghost rows0: map<int, Bet>, ghost order0: seq<int>)
    requires bets.Valid() && id !in rows0 && id !in order0 && id in bets.rows
    requires bets.rows == rows0[id := bets.rows[id]] && bets.order == order0 + [id]
    modifies bets
    ensures bets.Valid() && bets.rows == rows0 && bets.order == order0
  {
    ghost var data := bets.rows[id];
    bets.Remove(id);
    ExcludingLast(order0, id);
    RemoveInserted(rows0, id, data);
  }

  /** The write half of `create_bet`, once the bet is admitted at `price`: store the bet,
      debit the stake, delete the bet again if the debit is refused, record a debit that went
      through. */
  method PlaceBet(bets: Table<Bet>, transactions: Table<Transaction>, wallets: Table<Wallet>,
                  userId: int, bet: BetCreate, price: int, walletWrite: Transport)
    returns (r: Result<Row<Bet>, Exception>)
    requires bets.Valid() && transactions.Valid() && wallets.Valid()
    requires WalletOf(wallets, userId).Some?
    modifies bets, transactions, wallets
    ensures bets.Valid() && transactions.Valid() && wallets.Valid()
    ensures r.Ok? <==> walletWrite.Delivered?
    // The debit was refused: the bet is deleted again, and nothing is recorded.
    ensures walletWrite.Rejected? ==>
              r == Err(HttpException(500, WalletUpdateFailedMessage)) &&
              bets.rows == old(bets.rows) && bets.order == old(bets.order) &&
              unchanged(wallets) && unchanged(transactions)
    // The debit never got an answer: the exception propagates and the bet stays stored.
    ensures walletWrite.Unreachable? ==>
              r == Err(TransportError) &&
              bets.Scan() == old(bets.Scan()) + [Row(old(bets.nextId), NewBet(bet, userId, price))] &&
              unchanged(wallets) && unchanged(transactions)
    // Placed: one pending bet at the price, one debit of the stake, one record of it.
    ensures r.Ok? ==> r.value.data == NewBet(bet, userId, price) && bets.Scan() == old(bets.Scan()) + [r.value]
    ensures r.Ok? ==>
              var wallet := old(WalletOf(wallets, userId)).value;
              wallets.rows == old(wallets.rows)[wallet.id := Credit(wallet.data, -bet.amountStaked)]
    ensures r.Ok? ==>
              var record := Row(old(transactions.nextId), DebitRecord(userId, bet.amountStaked, r.value.id));
              transactions.Scan() == old(transactions.Scan()) + [record]
  {
    ghost var wallet := WalletOf(wallets, userId).value;
    // Create the bet.
    var stored := BetsCrud.CreateBet(bets, bet, userId, price);
    assert WalletOf(wallets, userId) == Some(wallet);
    // Deduct the stake from the wallet.
    if walletWrite.Unreachable? {
      return Err(TransportError);
    }
    var amount := -bet.amountStaked;
    var debited := PatchWallet(wallets, userId, amount, walletWrite);
    if debited.None? {
      // Roll the bet back.
      RollBackBet(bets, stored.id, old(bets.rows), old(bets.order));
      return Err(HttpException(500, WalletUpdateFailedMessage));
    }
    assert debited.value == Row(wallet.id, Credit(wallet.data, amount));
    assert Credit(wallet.data, amount) == Credit(wallet.data, -bet.amountStaked);
    // Record the transaction.
    var recorded := CreateTransaction(transactions, DebitRecord(userId, bet.amountStaked, stored.id));
    r := Ok(stored);
  }

  /** `create_bet`: the balance check and the match read refuse the bet before anything is
      written; an admitted bet is placed by `PlaceBet`. */
  method CreateBet(bets: Table<Bet>, transactions: Table<Transaction>, wallets: Table<Wallet>,
                   matches: Table<Match>, odds: Table<Odds>, userId: int, bet: BetCreate, net: Network)
    returns (r: Result<Row<Bet>, Exception>)
    requires bets.Valid() && transactions.Valid() && wallets.Valid() && matches.Valid() && odds.Valid()
    modifies bets, transactions, wallets
    ensures bets.Valid() && transactions.Valid() && wallets.Valid()
    ensures r.Ok? <==> old(Admission(wallets, matches, odds, userId, bet, net)).Ok? && net.walletWrite.Delivered?
    // Refused before anything is stored: no write anywhere.
    ensures old(Admission(wallets, matches, odds, userId, bet, net)).Err? ==>
              r == Err(old(Admission(wallets, matches, odds, userId, bet, net)).error) &&
              unchanged(bets) && unchanged(wallets) && unchanged(transactions)
    // Admitted: what happens next is the write half's contract.
    ensures old(Admission(wallets, matches, odds, userId, bet, net)).Ok? && net.walletWrite.Rejected? ==>
              r == Err(HttpException(500, WalletUpdateFailedMessage)) &&
              bets.rows == old(bets.rows) && bets.order == old(bets.order) &&
              unchanged(wallets) && unchanged(transactions)
    ensures old(Admission(wallets, matches, odds, userId, bet, net)).Ok? && net.walletWrite.Unreachable? ==>
              r == Err(TransportError) && unchanged(wallets) && unchanged(transactions) &&
              var price := old(Admission(wallets, matches, odds, userId, bet, net)).value;
              bets.Scan() == old(bets.Scan()) + [Row(old(bets.nextId), NewBet(bet, userId, price))]
    ensures r.Ok? ==>
              r.value.data == NewBet(bet, userId, old(Admission(wallets, matches, odds, userId, bet, net)).value) &&
              bets.Scan() == old(bets.Scan()) + [r.value]
    ensures r.Ok? ==>
              var wallet := old(WalletOf(wallets, userId)).value;
              wallets.rows == old(wallets.rows)[wallet.id := Credit(wallet.data, -bet.amountStaked)]
    ensures r.Ok? ==>
              var record := Row(old(transactions.nextId), DebitRecord(userId, bet.amountStaked, r.value.id));
              transactions.Scan() == old(transactions.Scan()) + [record]
  {
    // Verify user balance.
    if net.walletRead.Unreachable? {
      return Err(TransportError);
    }
    var reply := WalletReadReply(wallets, userId, net.walletRead);
    if !VerifyUserBalance(reply, bet.amountStaked) {
      return Err(HttpException(400, InsufficientFundsMessage));
    }
    // Get odds from the matches service.
    if net.matchRead.Unreachable? {
      return Err(TransportError);
    }
    var found := MatchReadReply(matches, odds, bet.matchId, net.matchRead);
    if found.None? {
      return Err(HttpException(404, MatchNotFoundMessage));
    }
    var price := OutcomeOdds(found.value.odds, bet.outcome);
    if price.Err? {
      return Err(price.error);
    }
    assert Admission(wallets, matches, odds, userId, bet, net) == price;
    r := PlaceBet(bets, transactions, wallets, userId, bet, price.value, net.walletWrite);
  }

  /** `read_bets`: the caller's bets, and only those. */
  function ReadBets(bets: Table<Bet>, userId: int): (r: seq<Row<Bet>>)
    reads bets
    requires bets.Valid()
    ensures r == GetBetsByUser(bets, userId)
    ensures forall i :: 0 <= i < |r| ==> r[i].data.userId == userId && r[i].id in bets.rows && r[i].data == bets.rows[r[i].id]
    ensures forall k :: k in bets.rows && bets.rows[k].userId == userId ==> Row(k, bets.rows[k]) in r
    ensures DistinctIds(r)
  {
    var mine := GetBetsByUser(bets, userId);
    assert forall k :: k in bets.rows ==> k in bets.order;
    mine
  }
}
