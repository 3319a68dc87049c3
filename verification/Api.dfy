// The completion endpoint as one request runs through it, and the pool top-up.

module Api {
  import opened Wrappers
  import opened Bytes
  import opened Workers
  import opened Registry
  import opened ApiKeys
  import opened ResponseHead
  import opened CreditLedger

  /** The request body after JSON parsing. */
  datatype Body = NotJson | OtherModel | ThisModel

  /** What becomes of the connection to the relay. */
  datatype Upstream =
    | ConnectTimedOut
    | ConnectFailed
    | WriteFailed
    | Answers(chunks: seq<Read>)

  /** What became of a top-up: refused, or the amount and the pool after it. */
  datatype TopUp = Denied(status: nat) | Added(amount: u64, creditPool: u64)

  datatype Answer =
    | Refused(status: nat)
    | Proxied(status: nat, contentType: string, body: seq<Read>)

  /** The status an unsettled request is refused with, in the order of the checks;
      None when the relay's answer decides. */
  function Refusal(keys: KeyMap, key: Option<string>, body: Body, pool: u64, upstream: Upstream): Option<nat>
  {
    if key.None? || !Usable(keys, key.value) then Some(401)
    else if body.NotJson? then Some(400)
    else if body.OtherModel? then Some(404)
    else if pool == 0 then Some(402)
    else if upstream.ConnectTimedOut? then Some(504)
    else if upstream.ConnectFailed? || upstream.WriteFailed? then Some(502)
    else None
  }

  /** Each refusal has its own reason. */
  lemma WhyRefused(keys: KeyMap, key: Option<string>, body: Body, pool: u64, upstream: Upstream)
    ensures var refusal := Refusal(keys, key, body, pool, upstream);
            var usable := key.Some? && key.value in keys && keys[key.value].enabled && keys[key.value].credits > 0;
            && (refusal == Some(401) <==> !usable)
            && (refusal == Some(400) <==> usable && body.NotJson?)
            && (refusal == Some(404) <==> usable && body.OtherModel?)
            && (refusal == Some(402) <==> usable && body.ThisModel? && pool == 0)
            && (refusal == Some(504) <==> usable && body.ThisModel? && pool > 0 && upstream.ConnectTimedOut?)
            && (refusal.None? <==> usable && body.ThisModel? && pool > 0 && upstream.Answers?)
  {
  }

  class ApiState {
    const registry: WorkerRegistry
    const keyManager: KeyManager
    const adminPassword: string
    var creditPool: u64

    constructor (registry: WorkerRegistry, keyManager: KeyManager, adminPassword: string, initialPool: u64)
      ensures this.registry == registry && this.keyManager == keyManager && this.adminPassword == adminPassword
      ensures creditPool == initialPool
    {
      this.adminPassword := adminPassword;
      this.registry := registry;
      this.keyManager := keyManager;
      creditPool := initialPool;
    }

    /** What the credits file holds after a settlement. */
    ghost function CreditsSaved(before: Option<CreditsFile>): Option<CreditsFile>
      reads this, registry
    {
      if registry.superNodeId.Some? && registry.superNodeId.value in registry.workers && registry.hasFile
      then Some(CreditsFile(Some(creditPool), CreditsOf(registry.workers))) else before
    }

    /** The three settlement actions, one after the other. */
    method Settle(key: string)
      modifies this`creditPool, registry, keyManager
      ensures creditPool == Decremented(old(creditPool))
      ensures registry.View() == if old(registry.superNodeId).Some?
                                 then CreditWorker(old(registry.View()), old(registry.superNodeId).value, 1)
                                 else old(registry.View())
      ensures registry.creditsFile == CreditsSaved(old(registry.creditsFile))
      ensures keyManager.keys == Apply(old(keyManager.keys), Deduct(key))
      ensures keyManager.file == if Changes(old(keyManager.keys), Deduct(key)) && keyManager.hasPath
                                 then Keys(keyManager.keys) else old(keyManager.file)
    {
      creditPool := if creditPool == 0 then TWO_64 - 1 else creditPool - 1;
      var total := registry.AddCreditsToSuperNode(1, creditPool);
      var ok := keyManager.DeductCredit(key);
    }

    /** One credit has been taken from the pool and from the key and given to the
        SuperNode, and all of that is saved. */
    twostate predicate Paid(key: string)
      reads this, registry, keyManager
    {
      && creditPool == old(creditPool) - 1
      && key in old(keyManager.keys) && old(keyManager.keys[key].credits) > 0
      && (var before := old(keyManager.keys[key]);
          keyManager.keys == old(keyManager.keys)[key := before.(credits := before.credits - 1)])
      && keyManager.file == (if keyManager.hasPath then Keys(keyManager.keys) else old(keyManager.file))
      && registry.View() == (if old(registry.superNodeId).Some?
                             then CreditWorker(old(registry.View()), old(registry.superNodeId).value, 1)
                             else old(registry.View()))
      && registry.creditsFile == CreditsSaved(old(registry.creditsFile))
    }

    twostate predicate Unchanged()
      reads this, registry, keyManager
    {
      && creditPool == old(creditPool)
      && keyManager.keys == old(keyManager.keys) && keyManager.file == old(keyManager.file)
      && registry.View() == old(registry.View()) && registry.creditsFile == old(registry.creditsFile)
    }

    /** The key is there, enabled and has credits, the request names the model, the pool
        is not empty and the relay answers. */
    predicate Admitted(key: Option<string>, body: Body, upstream: Upstream)
      reads this, keyManager
    {
      && key.Some? && key.value in keyManager.keys
      && keyManager.keys[key.value].enabled && keyManager.keys[key.value].credits > 0
      && body.ThisModel? && creditPool > 0 && upstream.Answers?
    }

    /** What the relay answers an admitted request with is passed on, and settled if it is
        a success. */
    method Proxy(key: string, chunks: seq<Read>, decode: seq<byte> -> string) returns (answer: Answer)
      requires key in keyManager.keys && keyManager.keys[key].credits > 0 && creditPool > 0
      modifies this`creditPool, registry, keyManager
      ensures (forall p: nat :: !HeadEndsAt(Stream(chunks), p)) ==> answer == Refused(502)
      ensures forall p: nat :: FirstHeadEnd(Stream(chunks), p) ==>
                var lines := Lines(decode(Stream(chunks)[..p]));
                && answer.Proxied?
                && answer.status == SentStatus(StatusCode(lines))
                && LastContentType(lines, answer.contentType)
                && Stream(answer.body) == Stream(chunks)[p + 4..]
      ensures if Successful(Stream(chunks), decode) then Paid(key) else Unchanged()
    {
      var reply := RelayReply(chunks, decode);
      match reply {
        case UpstreamNoHeadEnd => return Refused(502);
        case UpstreamReadFailed => return Refused(502);
        case Response(status, billed, contentType, sent) =>
          ghost var p: nat :| FirstHeadEnd(Stream(chunks), p);
          SuccessIsDecidedByTheHead(Stream(chunks), decode, p);
          if billed {
            Settle(key);
          }
          answer := Proxied(status, contentType, sent);
      }
    }

    /** A request on its own: it costs a credit of the pool and of the key, and the
        SuperNode earns one, exactly when it is admitted and the stream of the relay has
        a complete head that begins with a status line 2xx. In every other case nothing
        changes. */
    method ChatCompletions(key: Option<string>, body: Body, upstream: Upstream, decode: seq<byte> -> string)
      returns (answer: Answer)
      modifies this`creditPool, registry, keyManager
      ensures var refusal := old(Refusal(keyManager.keys, key, body, creditPool, upstream));
              && (refusal.Some? ==> answer == Refused(refusal.value))
              && (refusal.None? && (forall p: nat :: !HeadEndsAt(Stream(upstream.chunks), p))
                ==> answer == Refused(502))
              && (refusal.None? ==> forall p: nat :: FirstHeadEnd(Stream(upstream.chunks), p) ==>
                    var lines := Lines(decode(Stream(upstream.chunks)[..p]));
                    && answer.Proxied?
                    && answer.status == SentStatus(StatusCode(lines))
                    && LastContentType(lines, answer.contentType)
                    && Stream(answer.body) == Stream(upstream.chunks)[p + 4..])
      ensures if old(Admitted(key, body, upstream)) && Successful(Stream(upstream.chunks), decode)
              then Paid(key.value) else Unchanged()
      ensures old(Admitted(key, body, upstream)) ==>
                forall p: nat, n: nat ::
                  FirstHeadEnd(Stream(upstream.chunks), p) && HasStatus(decode(Stream(upstream.chunks)[..p]), n) ==>
                    && (if n / 100 == 2 then Paid(key.value) else Unchanged())
                    && answer.Proxied? && answer.status == if 100 <= n <= 999 then n else 502
      ensures old(Admitted(key, body, upstream)) ==>
                forall p: nat ::
                  FirstHeadEnd(Stream(upstream.chunks), p) && HasNoNumber(decode(Stream(upstream.chunks)[..p])) ==>
                    Unchanged()
    {
      if key.None? {
        return Refused(401);
      }
      var info := keyManager.ValidateKey(key.value);
      if info.None? {
        return Refused(401);
      }
      if body.NotJson? {
        return Refused(400);
      }
      if body.OtherModel? {
        return Refused(404);
      }
      if creditPool == 0 {
        return Refused(402);
      }
      match upstream {
        case ConnectTimedOut => return Refused(504);
        case ConnectFailed => return Refused(502);
        case WriteFailed => return Refused(502);
        case Answers(chunks) =>
          forall p: nat | FirstHeadEnd(Stream(chunks), p)
            ensures var text := decode(Stream(chunks)[..p]);
                    && (forall n: nat :: HasStatus(text, n) ==>
                          && (Successful(Stream(chunks), decode) <==> n / 100 == 2)
                          && SentStatus(StatusCode(Lines(text))) == if 100 <= n <= 999 then n else 502)
                    && (HasNoNumber(text) ==> !Successful(Stream(chunks), decode))
          {
            StatusDecides(Stream(chunks), decode, p);
          }
          answer := Proxy(key.value, chunks, decode);
      }
    }

    predicate IsAdmin(provided: Option<string>)
    {
      adminPassword == "" || (if provided.Some? then provided.value else "") == adminPassword
    }

    /** The admin's top-up. `body` is None when it is no JSON, and Some(None) when it
        has no amount. It is refused without the password and when the amount is zero
        or missing; otherwise the pool grows and is saved. */
    method AddCredits(provided: Option<string>, body: Option<Option<u64>>) returns (answer: TopUp)
      modifies this`creditPool, registry`creditsFile
      ensures var amount := if body.Some? && body.value.Some? then body.value.value else 0;
              var admin := adminPassword == "" || provided == Some(adminPassword);
              if admin && amount > 0 then
                && creditPool == WrappingAdd(old(creditPool), amount) && answer == Added(amount, creditPool)
                && registry.creditsFile == (if registry.hasFile
                  then Some(CreditsFile(Some(creditPool), CreditsOf(registry.workers)))
                                            else old(registry.creditsFile))
              else
                && answer == Denied(if admin then 400 else 401)
                && creditPool == old(creditPool) && registry.creditsFile == old(registry.creditsFile)
    {
      if !IsAdmin(provided) {
        return Denied(401);
      }
      if body.None? {
        return Denied(400);
      }
      var amount := if body.value.Some? then body.value.value else 0;
      if amount == 0 {
        return Denied(400);
      }
      creditPool := WrappingAdd(creditPool, amount);
      registry.SaveCredits(creditPool);
      answer := Added(amount, creditPool);
    }
  }
}
