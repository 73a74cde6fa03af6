/** The limiter over the counters in Redis (src/middlewares/rateLimiters.js). */
module RateLimiter {
  import opened Options
  import opened RateLimit

  /** A key with its expiry; `starts` records when each of its windows was opened. */
  datatype Counter = Counter(hits: nat, deadline: int, starts: seq<int>)

  datatype Headers = Headers(policySeconds: int, limit: nat, remaining: nat, resetSeconds: int)

  datatype Response = Skipped | Next(headers: Headers) | TooMany(headers: Headers) | Failed

  const SCRIPT_SHA := "rate-limit-script"

  datatype Client = User(id: string) | Address(ip: string)

  /** getClientKey: the user when there is one, otherwise the address. */
  function ClientKey(prefix: string, client: Client): string {
    "rate-limit:" + prefix + ":" + match client case User(id) => "user:" + id case Address(ip) => "ip:" + ip
  }

  lemma {:induction false} CommonFront(front: string, a: string, b: string)
    requires front + a == front + b
    ensures a == b
  {
    assert (front + a)[|front|..] == a && (front + b)[|front|..] == b;
  }

  lemma {:induction false} TagsDiffer(id: string, ip: string)
    ensures "user:" + id != "ip:" + ip
  {
    assert ("user:" + id)[0] == 'u' && ("ip:" + ip)[0] == 'i';
  }

  /** Different clients of one limiter have different keys; no user can be taken for an address. */
  lemma {:induction false} KeysDiffer(prefix: string, one: Client, other: Client)
    ensures ClientKey(prefix, one) == ClientKey(prefix, other) <==> one == other
  {
    if ClientKey(prefix, one) == ClientKey(prefix, other) {
      var front := "rate-limit:" + prefix + ":";
      match (one, other)
      case (User(a), User(b)) =>
        CommonFront(front, "user:" + a, "user:" + b);
        CommonFront("user:", a, b);
      case (Address(a), Address(b)) =>
        CommonFront(front, "ip:" + a, "ip:" + b);
        CommonFront("ip:", a, b);
      case (User(a), Address(b)) =>
        TagsDiffer(a, b);
        CommonFront(front, "user:" + a, "ip:" + b);
      case (Address(a), User(b)) =>
        TagsDiffer(b, a);
        CommonFront(front, "ip:" + a, "user:" + b);
    }
  }

  class Limiter {
    const limits: Limits
    var counters: map<string, Counter>
    var scripts: set<string>              // what the Redis server has loaded
    var rateLimitScriptSha: Option<string>

    ghost predicate Valid()
      reads this
    {
      forall key :: key in counters ==>
        var c := counters[key];
        c.hits > 0 && c.starts != [] && c.deadline == c.starts[|c.starts| - 1] + limits.windowMs
    }

    /** The state of one key. */
    ghost function View(key: string): State
      reads this
    {
      if key in counters then State(counters[key].hits, counters[key].starts) else START
    }

    constructor (limits: Limits)
      ensures Valid() && this.limits == limits && counters == map[]
    {
      this.limits := limits;
      counters, scripts, rateLimitScriptSha := map[], {}, None;
    }

    /** RATE_LIMIT_SCRIPT. */
    method EvalScript(key: string, now: int) returns (hits: nat, ttl: int)
      requires Valid()
      modifies this`counters
      ensures Valid()
      ensures View(key) == Incr(limits, old(View(key)), now)
      ensures hits == View(key).hits && ttl == Ttl(limits, View(key), now)
      ensures counters - {key} == old(counters) - {key}
    {
      var counter := Counter(0, now, []);
      if key in counters {
        counter := counters[key];
      }
      if key !in counters || Expired(limits.expiry, counter.deadline, now) {
        counter := counter.(hits := 0);
      }
      counter := counter.(hits := counter.hits + 1);
      if counter.hits == 1 {
        counter := Counter(1, now + limits.windowMs, counter.starts + [now]);
      }
      counters := counters[key := counter];
      return counter.hits, counter.deadline - now;
    }

    /** Whether the script runs: it does not when the server refuses the command, or does not know the script
        and has forgotten it again when it is asked a second time. */
    ghost predicate Runs(refused: bool, forgotten: bool, forgottenAgain: bool)
      reads this
    {
      var unknown := forgotten || (rateLimitScriptSha.Some? && rateLimitScriptSha.value !in scripts);
      !refused && !(unknown && forgottenAgain)
    }

    /** runRateLimitScript: the server may lose its scripts between any two commands, or refuse the first one
        for another reason, which is not tried again. */
    method RunRateLimitScript(key: string, now: int, refused: bool, forgotten: bool, forgottenAgain: bool)
      returns (reply: Option<(nat, int)>)
      requires Valid()
      modifies this
      ensures Valid()
      ensures reply.None? ==> counters == old(counters)
      ensures reply.Some? ==>
                && View(key) == Incr(limits, old(View(key)), now)
                && reply.value == (View(key).hits, Ttl(limits, View(key), now))
                && counters - {key} == old(counters) - {key}
      ensures reply.Some? <==> old(Runs(refused, forgotten, forgottenAgain))
    {
      if rateLimitScriptSha.None? {
        scripts := scripts + {SCRIPT_SHA};
        rateLimitScriptSha := Some(SCRIPT_SHA);
      }
      if refused {
        return None;
      }
      if forgotten {
        scripts := {};
      }
      if rateLimitScriptSha.value !in scripts {
        scripts := scripts + {SCRIPT_SHA};
        rateLimitScriptSha := Some(SCRIPT_SHA);
        if forgottenAgain {
          scripts := {};
        }
        if rateLimitScriptSha.value !in scripts {
          return None;
        }
      }
      var hits, ttl := EvalScript(key, now);
      return Some((hits, ttl));
    }

    /** The middleware: one arrival of a client is judged as the model of its key judges it, and no other
        client is affected. Under the test switch nothing is counted. An arrival is counted exactly if the
        script runs, and fails exactly if it does not, or its reply gets lost. */
    method Limit(
        prefix: string, client: Client, now: int, skip: bool, refused: bool, forgotten: bool, forgottenAgain: bool,
        lost: bool)
      returns (response: Response)
      requires Valid()
      modifies this
      ensures Valid()
      ensures response.Skipped? <==> skip
      ensures skip ==> counters == old(counters)
      ensures forall other: Client :: other != client ==>
                View(ClientKey(prefix, other)) == old(View(ClientKey(prefix, other)))
      ensures response.Failed? <==> !skip && (lost || !old(Runs(refused, forgotten, forgottenAgain)))
      ensures var key := ClientKey(prefix, client);
              View(key) == if skip || !old(Runs(refused, forgotten, forgottenAgain)) then old(View(key))
                           else Incr(limits, old(View(key)), now)
      ensures response.Next? || response.TooMany? ==>
                var key := ClientKey(prefix, client);
                var v := Judge(limits, old(View(key)), Arrival(now, true));
                && (response.Next? <==> v.admitted)
                && response.headers ==
                     Headers((limits.windowMs + 999) / 1000, limits.max, Remaining(limits, v.hits), ResetSeconds(v.ttl))
    {
      if skip {
        return Skipped;
      }
      var key := ClientKey(prefix, client);
      var reply := RunRateLimitScript(key, now, refused, forgotten, forgottenAgain);
      forall other: Client | other != client
        ensures View(ClientKey(prefix, other)) == old(View(ClientKey(prefix, other)))
      {
        KeysDiffer(prefix, client, other);
        assert ClientKey(prefix, other) in counters <==> ClientKey(prefix, other) in counters - {key};
        assert ClientKey(prefix, other) in old(counters) <==> ClientKey(prefix, other) in old(counters) - {key};
      }
      if reply.None? || lost {
        return Failed;
      }
      var (hits, ttl) := reply.value;
      var ceiling := (ttl + 999) / 1000;
      var headers := Headers(
        (limits.windowMs + 999) / 1000,
        limits.max,
        if limits.max > hits then limits.max - hits else 0,
        if ceiling > 1 then ceiling else 1);
      if hits > limits.max {
        return TooMany(headers);
      }
      return Next(headers);
    }
  }
}
