/** The abundance token ledger: balances and expiring allowances. Each call either returns the new
    state or fails, in which case the host discards everything the call wrote. */
module AbundanceToken {
  import opened Base

  datatype AllowanceKey = AllowanceKey(from: Address, spender: Address)

  datatype AllowanceValue = AllowanceValue(amount: i128, expiration: u32)

  datatype TokenState = TokenState(
    balances: map<Address, i128>,
    allowances: map<AllowanceKey, AllowanceValue>)

  datatype TokenCall =
    | Mint(to: Address, amount: i128)
    | Approve(from: Address, spender: Address, amount: i128, expiration: u32)
    | Transfer(from: Address, to: Address, amount: i128)
    | TransferFrom(spender: Address, from: Address, to: Address, amount: i128)
    | Burn(from: Address, amount: i128)
    | BurnFrom(spender: Address, from: Address, amount: i128)
  {
    /** Whose authorisation the call requires. */
    function Signer(): Address
    {
      match this
      case Mint(to, _) => to
      case Approve(from, _, _, _) => from
      case Transfer(from, _, _) => from
      case TransferFrom(spender, _, _, _) => spender
      case Burn(from, _) => from
      case BurnFrom(spender, _, _) => spender
    }
  }

  function Balance(t: TokenState, a: Address): i128
  {
    GetOr(t.balances, a, 0)
  }

  function ReceiveBalance(t: TokenState, a: Address, amount: i128): Result<TokenState>
  {
    var b :- CheckedAdd(Balance(t, a), amount).OkOr(Trap);
    Ok(t.(balances := t.balances[a := b]))
  }

  function SpendBalance(t: TokenState, a: Address, amount: i128): Result<TokenState>
  {
    var before := Balance(t, a);
    :- Need(before >= amount, Trap);
    var b :- CheckedSub(before, amount).OkOr(Trap);
    Ok(t.(balances := t.balances[a := b]))
  }

  function ReadAllowance(t: TokenState, now: u32, k: AllowanceKey): AllowanceValue
  {
    if k !in t.allowances then AllowanceValue(0, 0)
    else if t.allowances[k].expiration < now then AllowanceValue(0, t.allowances[k].expiration)
    else t.allowances[k]
  }

  function WriteAllowance(t: TokenState, now: u32, k: AllowanceKey, amount: i128, expiration: u32): Result<TokenState>
  {
    var allowance := AllowanceValue(amount, expiration);
    :- Need(amount > 0 ==> now <= expiration, Trap);
    Ok(t.(allowances := t.allowances[k := allowance]))
  }

  function SpendAllowance(t: TokenState, now: u32, k: AllowanceKey, amount: i128): Result<TokenState>
  {
    var a := ReadAllowance(t, now, k);
    :- Need(a.amount >= amount, Trap);
    var left :- CheckedSub(a.amount, amount).OkOr(Trap);
    WriteAllowance(t, now, k, left, a.expiration)
  }

  function Move(t: TokenState, from: Address, to: Address, amount: i128): Result<TokenState>
  {
    if amount < 0 then Err(Trap)
    else
      var spent :- SpendBalance(t, from, amount);
      ReceiveBalance(spent, to, amount)
  }

  /** One entry-point call, authorised by its signer. */
  function Invoke(t: TokenState, now: u32, c: TokenCall): Result<TokenState>
  {
    if c.amount < 0 then Err(Trap)
    else
      match c
      case Mint(to, amount) => ReceiveBalance(t, to, amount)
      case Approve(from, spender, amount, expiration) =>
        WriteAllowance(t, now, AllowanceKey(from, spender), amount, expiration)
      case Transfer(from, to, amount) => Move(t, from, to, amount)
      case TransferFrom(spender, from, to, amount) =>
        var t' :- SpendAllowance(t, now, AllowanceKey(from, spender), amount);
        Move(t', from, to, amount)
      case Burn(from, amount) => SpendBalance(t, from, amount)
      case BurnFrom(spender, from, amount) =>
        var t' :- SpendAllowance(t, now, AllowanceKey(from, spender), amount);
        SpendBalance(t', from, amount)
  }

  /** The result and the new state are those of `spec`; on failure nothing changed. */
  ghost predicate Refines(spec: Result<TokenState>, r: Result<()>, before: TokenState, after: TokenState)
  {
    match spec
    case Ok(t) => r.Ok? && after == t
    case Err(e) => r == Err(e) && after == before
  }

  /** The contract object. A method that fails after a write restores the state it found, as the
      host does for a call that panics. */
  class Token {
    var balances: map<Address, i128>
    var allowances: map<AllowanceKey, AllowanceValue>

    constructor ()
      ensures State() == TokenState(map[], map[])
    {
      balances, allowances := map[], map[];
    }

    function State(): TokenState
      reads this
    {
      TokenState(balances, allowances)
    }

    method Restore(saved: TokenState)
      modifies this
      ensures State() == saved
    {
      balances, allowances := saved.balances, saved.allowances;
    }

    method ReadBalance(a: Address) returns (balance: i128)
      ensures balance == Balance(State(), a)
    {
      if a in balances {
        balance := balances[a];
      } else {
        balance := 0;
      }
    }

    method WriteBalance(a: Address, amount: i128)
      modifies this
      ensures State() == old(State()).(balances := old(balances)[a := amount])
    {
      balances := balances[a := amount];
    }

    method Receive(a: Address, amount: i128) returns (r: Result<()>)
      modifies this
      ensures Refines(ReceiveBalance(old(State()), a, amount), r, old(State()), State())
    {
      var balance := ReadBalance(a);
      var sum := CheckedAdd(balance, amount);
      if sum.None? {
        return Err(Trap);
      }
      WriteBalance(a, sum.value);
      return Ok(());
    }

    method Spend(a: Address, amount: i128) returns (r: Result<()>)
      modifies this
      ensures Refines(SpendBalance(old(State()), a, amount), r, old(State()), State())
    {
      var balance := ReadBalance(a);
      if balance < amount {
        return Err(Trap);
      }
      var rest := CheckedSub(balance, amount);
      if rest.None? {
        return Err(Trap);
      }
      WriteBalance(a, rest.value);
      return Ok(());
    }

    method WriteAllowanceEntry(now: u32, k: AllowanceKey, amount: i128, expiration: u32) returns (r: Result<()>)
      modifies this
      ensures Refines(WriteAllowance(old(State()), now, k, amount, expiration), r, old(State()), State())
    {
      if amount > 0 && expiration < now {
        return Err(Trap);
      }
      allowances := allowances[k := AllowanceValue(amount, expiration)];
      return Ok(());
    }

    method SpendAllowanceEntry(now: u32, k: AllowanceKey, amount: i128) returns (r: Result<()>)
      modifies this
      ensures Refines(SpendAllowance(old(State()), now, k, amount), r, old(State()), State())
    {
      var a := ReadAllowance(State(), now, k);
      if a.amount < amount {
        return Err(Trap);
      }
      var left := CheckedSub(a.amount, amount);
      if left.None? {
        return Err(Trap);
      }
      r := WriteAllowanceEntry(now, k, left.value, a.expiration);
    }

    method Mint(to: Address, amount: i128) returns (r: Result<()>)
      modifies this
      ensures Refines(Invoke(old(State()), 0, TokenCall.Mint(to, amount)), r, old(State()), State())
    {
      if amount < 0 {
        return Err(Trap);
      }
      r := Receive(to, amount);
    }

    method Approve(now: u32, from: Address, spender: Address, amount: i128, expiration: u32) returns (r: Result<()>)
      modifies this
      ensures Refines(Invoke(old(State()), now, TokenCall.Approve(from, spender, amount, expiration)),
                      r, old(State()), State())
    {
      if amount < 0 {
        return Err(Trap);
      }
      r := WriteAllowanceEntry(now, AllowanceKey(from, spender), amount, expiration);
    }

    method Transfer(from: Address, to: Address, amount: i128) returns (r: Result<()>)
      modifies this
      ensures Refines(Move(old(State()), from, to, amount), r, old(State()), State())
    {
      var saved := State();
      if amount < 0 {
        return Err(Trap);
      }
      r := Spend(from, amount);
      if r.Err? {
        return;
      }
      r := Receive(to, amount);
      if r.Err? {
        Restore(saved);
      }
    }

    method TransferFrom(now: u32, spender: Address, from: Address, to: Address, amount: i128) returns (r: Result<()>)
      modifies this
      ensures Refines(Invoke(old(State()), now, TokenCall.TransferFrom(spender, from, to, amount)),
                      r, old(State()), State())
    {
      var saved := State();
      if amount < 0 {
        return Err(Trap);
      }
      r := SpendAllowanceEntry(now, AllowanceKey(from, spender), amount);
      if r.Err? {
        return;
      }
      r := Spend(from, amount);
      if r.Ok? {
        r := Receive(to, amount);
      }
      if r.Err? {
        Restore(saved);
      }
    }

    method Burn(from: Address, amount: i128) returns (r: Result<()>)
      modifies this
      ensures Refines(Invoke(old(State()), 0, TokenCall.Burn(from, amount)), r, old(State()), State())
    {
      if amount < 0 {
        return Err(Trap);
      }
      r := Spend(from, amount);
    }

    method BurnFrom(now: u32, spender: Address, from: Address, amount: i128) returns (r: Result<()>)
      modifies this
      ensures Refines(Invoke(old(State()), now, TokenCall.BurnFrom(spender, from, amount)),
                      r, old(State()), State())
    {
      var saved := State();
      if amount < 0 {
        return Err(Trap);
      }
      r := SpendAllowanceEntry(now, AllowanceKey(from, spender), amount);
      if r.Err? {
        return;
      }
      r := Spend(from, amount);
      if r.Err? {
        Restore(saved);
      }
    }
  }
}
