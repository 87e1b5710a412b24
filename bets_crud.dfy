/** The bets service's data access (bets_service/app/crud.py): bets and wallet transactions
    are inserted verbatim, bets are read back per user, and the balance check compares the
    wallet service's answer with the stake. Money is held in integer cents and odds in
    integer hundredths. */
module BetsCrud {
  import opened Wrappers
  import opened Tables
  import opened Seqs

  /** A `bets` row. */
  datatype Bet = Bet(userId: int, matchId: int, outcome: string, amountStaked: int, oddsOnBet: int, status: string)

  /** `BetCreate`: the match, the outcome bet on, and the stake. */
  datatype BetCreate = BetCreate(matchId: int, outcome: string, amountStaked: int)

  /** A `transactions` row, also the `TransactionCreate` request. */
  datatype Transaction = Transaction(walletId: int, amount: int, kind: string, relatedBetId: Option<int>)

  /** The column default of a bet's `status`. */
  const PendingStatus: string := "pending"

  /** The answer of the user service to `GET /users/me/wallet`: 200 with the wallet's
      balance, or any other status, whose body is never read. */
  datatype WalletReply = WalletFound(balance: int) | WalletError

  /** `verify_user_balance`: the user can cover `amount` when the wallet service answers 200
      with a balance of at least `amount`; any other answer refuses the bet. */
  predicate VerifyUserBalance(reply: WalletReply, amount: int) {
    reply.WalletFound? && reply.balance >= amount
  }

  /** `create_bet`'s row: the request fields, the caller and the price, pending. */
  function NewBet(bet: BetCreate, userId: int, oddsOnBet: int): (r: Bet)
    ensures r.userId == userId && r.oddsOnBet == oddsOnBet
    ensures r.matchId == bet.matchId && r.outcome == bet.outcome && r.amountStaked == bet.amountStaked
    ensures r.status == PendingStatus
  {
    Bet(userId, bet.matchId, bet.outcome, bet.amountStaked, oddsOnBet, PendingStatus)
  }

  /** `create_bet`: stores and returns the new bet. */
  method CreateBet(bets: Table<Bet>, bet: BetCreate, userId: int, oddsOnBet: int) returns (r: Row<Bet>)
    requires bets.Valid()
    modifies bets
    ensures bets.Valid()
    ensures r.id == old(bets.nextId) && r.id !in old(bets.rows) && r.data == NewBet(bet, userId, oddsOnBet)
    ensures bets.rows == old(bets.rows)[r.id := r.data] && bets.order == old(bets.order) + [r.id]
    ensures bets.Scan() == old(bets.Scan()) + [r]
  {
    var data := NewBet(bet, userId, oddsOnBet);
    var id := bets.Insert(data);
    r := Row(id, data);
  }

  /** `get_bets_by_user`: the bets of that user, in scan order. */
  function GetBetsByUser(bets: Table<Bet>, userId: int): (r: seq<Row<Bet>>)
    reads bets
    requires bets.Valid()
    ensures forall i :: 0 <= i < |r| ==> r[i] in bets.Scan() && r[i].data.userId == userId
    ensures forall i :: 0 <= i < |bets.Scan()| && bets.Scan()[i].data.userId == userId ==> bets.Scan()[i] in r
    ensures forall x | x in multiset(bets.Scan()) ::
              multiset(r)[x] == if x.data.userId == userId then multiset(bets.Scan())[x] else 0
    ensures DistinctIds(r)
  {
    var mine := (b: Row<Bet>) => b.data.userId == userId;
    FilterCounts(bets.Scan(), mine);
    FilterKeepsIdsDistinct(bets.Scan(), mine);
    Filter(bets.Scan(), mine)
  }

  /** `create_transaction`: stores the given transaction verbatim. */
  method CreateTransaction(transactions: Table<Transaction>, t: Transaction) returns (r: Row<Transaction>)
    requires transactions.Valid()
    modifies transactions
    ensures transactions.Valid()
    ensures r == Row(old(transactions.nextId), t) && r.id !in old(transactions.rows)
    ensures transactions.Scan() == old(transactions.Scan()) + [r]
  {
    var id := transactions.Insert(t);
    r := Row(id, t);
  }
}
