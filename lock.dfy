/** The lock behind a singleton (`blockz_derive/src/singleton/lock.rs`): the
    tokens of its type, of the expression that makes one, and of the guards
    for shared and for exclusive access. */
module Lock {
  import opened Syn
  import opened DeriveCommon

  /** `SingletonLock`: a tokio `Mutex` or a tokio `RwLock`. */
  datatype SingletonLock = Mutex | RwLock

  /** `SingletonLock::default`. */
  const Default: SingletonLock := Mutex

  /** The name of the lock type in `tokio::sync`. */
  function LockName(lock: SingletonLock): string {
    match lock
    case Mutex => "Mutex"
    case RwLock => "RwLock"
  }

  /** `::tokio::sync::<Lock>`. */
  function LockPath(lock: SingletonLock): TokenStream {
    TokioPath + [Punct(':'), Punct(':'), Ident("sync"), Punct(':'), Punct(':'), Ident(LockName(lock))]
  }

  /** `to_type`: `::tokio::sync::<Lock><inner>`. */
  function ToType(lock: SingletonLock, inner: string): (r: TokenStream)
    ensures |r| == 12
    ensures r[8] == Ident(if lock == Mutex then "Mutex" else "RwLock")
    ensures r[9..] == [Punct('<'), Ident(inner), Punct('>')]
  {
    LockPath(lock) + [Punct('<'), Ident(inner), Punct('>')]
  }

  /** `to_new_lock_expr`: `::tokio::sync::<Lock>::new(inner)`. */
  function ToNewLockExpr(lock: SingletonLock, inner: string): (r: TokenStream)
    ensures |r| == 13
    ensures r[8] == Ident(if lock == Mutex then "Mutex" else "RwLock")
    ensures r[9..] == [Punct(':'), Punct(':'), Ident("new"), Group(Parenthesis, [Ident(inner)])]
  {
    LockPath(lock) + [Punct(':'), Punct(':'), Ident("new"), Group(Parenthesis, [Ident(inner)])]
  }

  /** `<lock>.<method>().await`. */
  function AwaitCall(lock: string, name: string): (r: TokenStream)
    ensures |r| == 6 && r[0] == Ident(lock) && r[2] == Ident(name)
  {
    [Ident(lock), Punct('.'), Ident(name), Group(Parenthesis, []), Punct('.'), Ident("await")]
  }

  /** `to_guard`: `lock()` on a mutex, `read()` on a read-write lock. */
  function ToGuard(lock: SingletonLock, lockIdent: string): (r: TokenStream)
    ensures |r| == 6 && r[0] == Ident(lockIdent)
    ensures r[2] == Ident(if lock == Mutex then "lock" else "read")
  {
    match lock
    case Mutex => AwaitCall(lockIdent, "lock")
    case RwLock => AwaitCall(lockIdent, "read")
  }

  /** `to_mut_guard`: `lock()` on a mutex, `write()` on a read-write lock. */
  function ToMutGuard(lock: SingletonLock, lockIdent: string): (r: TokenStream)
    ensures |r| == 6 && r[0] == Ident(lockIdent)
    ensures r[2] == Ident(if lock == Mutex then "lock" else "write")
  {
    match lock
    case Mutex => AwaitCall(lockIdent, "lock")
    case RwLock => AwaitCall(lockIdent, "write")
  }

  /** The type and the expression that makes its value name the same lock,
      and the lock is read back from either of them. */
  lemma TypeAndExprAgree(a: SingletonLock, b: SingletonLock, inner: string)
    ensures ToType(a, inner)[8] == ToNewLockExpr(a, inner)[8]
    ensures ToType(a, inner) == ToType(b, inner) <==> a == b
    ensures ToNewLockExpr(a, inner) == ToNewLockExpr(b, inner) <==> a == b
  {
    if a != b {
      assert ToType(a, inner)[8] != ToType(b, inner)[8];
      assert ToNewLockExpr(a, inner)[8] != ToNewLockExpr(b, inner)[8];
    }
  }

  /** Shared and exclusive access take the same guard exactly on a mutex. */
  lemma GuardsCoincideIffMutex(lock: SingletonLock, lockIdent: string)
    ensures ToGuard(lock, lockIdent) == ToMutGuard(lock, lockIdent) <==> lock == Mutex
  {
    if lock == RwLock {
      assert ToGuard(lock, lockIdent)[2] != ToMutGuard(lock, lockIdent)[2];
    }
  }
}
