/** The user service's data access (user_service/app/crud.py): users with a unique email,
    one wallet per user, and the in-place balance change every debit and credit goes
    through. Money is held in integer cents. */
module UserCrud {
  import opened Wrappers
  import opened Tables
  import opened Seqs
  import opened Exceptions

  /** A `users` row; only the hash of the password is ever stored. */
  datatype User = User(email: string, hashedPassword: string, role: string)

  /** A `wallets` row: the owning user, the balance in cents and the currency code. */
  datatype Wallet = Wallet(userId: int, balance: int, currency: string)

  /** `UserCreate`: the sign-up request, carrying the password in the clear. */
  datatype UserCreate = UserCreate(email: string, role: string, password: string)

  /** The column defaults of a new wallet. */
  const DefaultBalance: int := 0
  const DefaultCurrency: string := "RUB"

  /** The wallet `create_user` opens for a new user. */
  function NewWallet(userId: int): (r: Wallet)
    ensures r.userId == userId && r.balance == 0
  {
    Wallet(userId, DefaultBalance, DefaultCurrency)
  }

  /** `get_user_by_email`: the first user with that email, or `None`. */
  function GetUserByEmail(users: Table<User>, email: string): (r: Option<Row<User>>)
    reads users
    requires users.Valid()
    ensures r.None? <==> forall i :: 0 <= i < |users.Scan()| ==> users.Scan()[i].data.email != email
    ensures r.Some? ==> r.value in users.Scan() && r.value.data.email == email
  {
    FirstWhere(users.Scan(), (u: Row<User>) => u.data.email == email)
  }

  /** The wallet of a user: the first wallet row whose `user_id` matches, or `None`. */
  function WalletOf(wallets: Table<Wallet>, userId: int): (r: Option<Row<Wallet>>)
    reads wallets
    requires wallets.Valid()
    ensures r.None? <==> forall i :: 0 <= i < |wallets.Scan()| ==> wallets.Scan()[i].data.userId != userId
    ensures r.Some? ==> r.value.data.userId == userId && r.value.id in wallets.rows
    ensures r.Some? ==> wallets.rows[r.value.id] == r.value.data
  {
    FirstWhere(wallets.Scan(), (w: Row<Wallet>) => w.data.userId == userId)
  }

  /** The intended `wallet.balance += amount`, for an amount of either sign and with no lower
      bound. */
  function Credit(w: Wallet, amount: int): (r: Wallet)
    ensures r.balance - w.balance == amount
    ensures r.userId == w.userId && r.currency == w.currency
  {
    w.(balance := w.balance + amount)
  }

  /** Crediting an amount and then its opposite restores the wallet: a debit can be undone. */
  lemma CreditUndo(w: Wallet, amount: int)
    ensures Credit(Credit(w, amount), -amount) == w
  {
  }

  /** `create_user`: one user row holding `hash(password)`, then one wallet for it with the
      default balance and currency. An email already registered is refused by the unique
      index on `users.email`, and nothing is written. */
  method CreateUser(users: Table<User>, wallets: Table<Wallet>, u: UserCreate, hash: string -> string)
    returns (r: Result<Row<User>, Exception>)
    requires users.Valid() && wallets.Valid()
    modifies users, wallets
    ensures users.Valid() && wallets.Valid()
    ensures r.Err? <==> old(GetUserByEmail(users, u.email)).Some?
    ensures r.Err? ==> r.error == IntegrityError(DuplicateKeyMessage) && unchanged(users) && unchanged(wallets)
    ensures r.Ok? ==> r.value.data == User(u.email, hash(u.password), u.role) && r.value.id !in old(users.rows)
    ensures r.Ok? ==> users.Scan() == old(users.Scan()) + [r.value]
    ensures r.Ok? ==>
              wallets.Scan() == old(wallets.Scan()) + [Row(old(wallets.nextId), NewWallet(r.value.id))]
  {
    if GetUserByEmail(users, u.email).Some? {
      return Err(IntegrityError(DuplicateKeyMessage));
    }
    var user := User(u.email, hash(u.password), u.role);
    var userId := users.Insert(user);
    var walletId := wallets.Insert(NewWallet(userId));
    r := Ok(Row(userId, user));
  }

  /** What `wallet.balance += amount` raises: the `Numeric(10, 2)` balance loads as a
      `Decimal`, the request's `amount` is a `float`, and Python does not add the two. */
  const BalanceTypeError: Exception :=
    OtherException("TypeError", None, "unsupported operand type(s) for +=: 'decimal.Decimal' and 'float'")

  /** `update_wallet_balance` as written: `None` when the user has no wallet; otherwise the
      `+=` raises before the commit, so no balance ever changes. */
  method UpdateWalletBalance(wallets: Table<Wallet>, userId: int, amount: int)
    returns (r: Result<Option<Row<Wallet>>, Exception>)
    requires wallets.Valid()
    ensures r == Ok(None) <==> WalletOf(wallets, userId).None?
    ensures r.Err? <==> WalletOf(wallets, userId).Some?
    ensures r.Err? ==> r.error == BalanceTypeError
  {
    var wallet := WalletOf(wallets, userId);
    if wallet.None? {
      return Ok(None);
    }
    r := Err(BalanceTypeError);
  }

  /** The balance update as evidently intended, with the amount converted to a `Decimal`
      before the `+=`: the user's wallet, credited with `amount` in place; `None` and no
      change when the user has no wallet. */
  method CreditWallet(wallets: Table<Wallet>, userId: int, amount: int) returns (r: Option<Row<Wallet>>)
    requires wallets.Valid()
    modifies wallets
    ensures wallets.Valid()
    ensures r.None? <==> old(WalletOf(wallets, userId)).None?
    ensures r.None? ==> unchanged(wallets)
    ensures r.Some? ==> r.value == Row(old(WalletOf(wallets, userId)).value.id,
                                       Credit(old(WalletOf(wallets, userId)).value.data, amount))
    ensures r.Some? ==> wallets.rows == old(wallets.rows)[r.value.id := r.value.data]
    ensures r.Some? ==> wallets.order == old(wallets.order)
  {
    var wallet := WalletOf(wallets, userId);
    if wallet.None? {
      return None;
    }
    var credited := Credit(wallet.value.data, amount);
    wallets.Replace(wallet.value.id, credited);
    r := Some(Row(wallet.value.id, credited));
  }
}
