/** The SOCKS5 handshake of a proxy server, up to the end of the request: sections 3, 4 and 5 of RFC 1928 and
    section 2 of RFC 1929. */
module Socks5 {
  import opened Wrappers
  import ConnectionGuard

  newtype Byte = x: int | 0 <= x < 256

  type Bytes = seq<Byte>

  /** The textual form of an address is left to whoever dials it. */
  datatype Host = IPv4(ip: Bytes) | Domain(name: Bytes) | IPv6(ip: Bytes)

  datatype Destination = Destination(host: Host, port: nat)

  /** The server's side: whether it has credentials, what its validator answers and for which customer, which
      destinations the guard lets through, and which the network reaches. */
  datatype Policy = Policy(
    secured: bool, accepts: (Bytes, Bytes) -> bool, owner: (Bytes, Bytes) -> string,
    admits: Destination -> bool, reachable: Destination -> bool)

  datatype End =
    | Short | NoMethod | LoginRefused | CommandUnsupported | AddressUnsupported
    | GuardRefused(dest: Destination) | Unreachable(dest: Destination) | Connected(dest: Destination)

  /** How a handshake ended, how many bytes it took from the client and what it wrote back. */
  datatype Handshake = Handshake(end: End, consumed: nat, written: Bytes)

  function Reply(code: Byte): Bytes {
    [5, code, 0, 1, 0, 0, 0, 0, 0, 0]
  }

  // ----- parsing

  datatype Greeting = ShortGreeting | Methods(methods: Bytes, next: nat)

  datatype Login = BadVersion | ShortLogin | Login(user: Bytes, password: Bytes, next: nat)

  datatype Address = ShortAddress | UnknownType | Address(host: Host, next: nat)

  datatype Request = ShortRequest | NotConnect | BadType | Request(dest: Destination, next: nat)

  function ParseGreeting(input: Bytes): Greeting {
    if |input| < 2 || 2 + input[1] as nat > |input| then ShortGreeting
    else Methods(input[2..2 + input[1] as nat], 2 + input[1] as nat)
  }

  function MethodFor(secured: bool, methods: Bytes): Byte {
    if secured then if 2 in methods then 2 else 255
    else if 0 in methods then 0 else 255
  }

  function ParseLogin(input: Bytes, pos: nat): Login
    requires pos <= |input|
  {
    if pos == |input| || input[pos] != 1 then BadVersion
    else if pos + 1 == |input| then ShortLogin
    else
      var at := pos + 2 + input[pos + 1] as nat;
      if at >= |input| || at + 1 + input[at] as nat > |input| then ShortLogin
      else Login(input[pos + 2..at], input[at + 1..at + 1 + input[at] as nat], at + 1 + input[at] as nat)
  }

  /** The address whose type byte is at pos. */
  function ParseAddress(input: Bytes, pos: nat): Address
    requires pos < |input|
  {
    var at := pos + 1;
    if input[pos] == 1 then
      if at + 4 > |input| then ShortAddress else Address(IPv4(input[at..at + 4]), at + 4)
    else if input[pos] == 3 then
      if at == |input| || at + 1 + input[at] as nat > |input| then ShortAddress
      else Address(Domain(input[at + 1..at + 1 + input[at] as nat]), at + 1 + input[at] as nat)
    else if input[pos] == 4 then
      if at + 16 > |input| then ShortAddress else Address(IPv6(input[at..at + 16]), at + 16)
    else UnknownType
  }

  function ParseRequest(input: Bytes, pos: nat): Request
    requires pos <= |input|
  {
    if pos + 4 > |input| then ShortRequest
    else if input[pos + 1] != 1 then NotConnect
    else match ParseAddress(input, pos + 3)
      case ShortAddress => ShortRequest
      case UnknownType => BadType
      case Address(host, next) =>
        if next + 2 > |input| then ShortRequest
        else Request(Destination(host, input[next] as nat * 256 + input[next + 1] as nat), next + 2)
  }

  // ----- the handshake

  function Ending(policy: Policy, dest: Destination): End {
    if !policy.admits(dest) then GuardRefused(dest) else if policy.reachable(dest) then Connected(dest)
        else Unreachable(dest)
  }

  function ReplyTo(end: End): Byte {
    match end
    case Connected(_) => 0
    case GuardRefused(_) => 2
    case Unreachable(_) => 4
    case CommandUnsupported => 7
    case AddressUnsupported => 8
    case _ => 255
  }

  function AfterLogin(policy: Policy, input: Bytes, pos: nat, written: Bytes): Handshake
    requires pos <= |input|
  {
    match ParseRequest(input, pos)
    case ShortRequest => Handshake(Short, |input|, written)
    case NotConnect => Handshake(CommandUnsupported, pos + 4, written + Reply(7))
    case BadType => Handshake(AddressUnsupported, pos + 4, written + Reply(8))
    case Request(dest, next) =>
      Handshake(Ending(policy, dest), next, written + Reply(ReplyTo(Ending(policy, dest))))
  }

  function Handle(policy: Policy, input: Bytes): Handshake {
    match ParseGreeting(input)
    case ShortGreeting => Handshake(Short, |input|, [])
    case Methods(methods, next) =>
      var choice := MethodFor(policy.secured, methods);
      if choice == 255 then Handshake(NoMethod, next, [5, 255])
      else if choice == 0 then AfterLogin(policy, input, next, [5, 0])
      else match ParseLogin(input, next)
        case BadVersion => Handshake(LoginRefused, if next < |input| then next + 1 else next, [5, 2, 1, 1])
        case ShortLogin => Handshake(LoginRefused, |input|, [5, 2])
        case Login(user, password, at) =>
          if policy.accepts(user, password) then AfterLogin(policy, input, at, [5, 2, 1, 0])
          else Handshake(LoginRefused, at, [5, 2, 1, 1])
  }

  datatype Onward = Onward(pos: nat, written: Bytes)

  /** Where the request starts and what has been written by then, if the greeting and the login go through. */
  function GoesOnAt(policy: Policy, input: Bytes): Option<Onward> {
    match ParseGreeting(input)
    case ShortGreeting => None
    case Methods(methods, next) =>
      var choice := MethodFor(policy.secured, methods);
      if choice == 255 then None
      else if choice == 0 then Some(Onward(next, [5, 0]))
      else match ParseLogin(input, next)
        case Login(user, password, at) => if policy.accepts(user, password) then Some(Onward(at, [5, 2, 1, 0]))
          else None
        case _ => None
  }

  // ----- the connection guard

  /** The customer an accepted login belongs to; without a login there is none. */
  function CustomerOf(policy: Policy, input: Bytes): string {
    match ParseGreeting(input)
    case ShortGreeting => ""
    case Methods(methods, next) =>
      if MethodFor(policy.secured, methods) != 2 then ""
      else match ParseLogin(input, next)
        case Login(user, password, _) => policy.owner(user, password)
        case _ => ""
  }

  /** The guard as it answers once the customer is known: it lets anything through for no customer, and otherwise
      what the destination and the room left by the connection limits allow. */
  function Guarded(policy: Policy, customer: string, room: bool): Policy {
    policy.(admits := (dest: Destination) => customer == "" || (policy.admits(dest) && room))
  }

  // ----- the handler

  class Handler {
    const policy: Policy
    const input: Bytes
    const proxy: string
    const guard: ConnectionGuard.Guard
    var pos: nat
    var written: Bytes
    var customer: string

    ghost predicate Valid()
      reads this
    {
      pos <= |input|
    }

    /** The guard has room for one more connection of the customer. */
    ghost predicate Room(customer: string, limit: int, maxPerProxy: int)
      reads guard
    {
      ConnectionGuard.Passes(guard.View(), customer, proxy, limit, maxPerProxy)
    }

    /** The client's bytes in full, followed by the end of the stream. */
    constructor (policy: Policy, input: Bytes, proxy: string, guard: ConnectionGuard.Guard)
      ensures Valid() && this.policy == policy && this.input == input && this.proxy == proxy && this.guard == guard
      ensures pos == 0 && written == [] && customer == ""
    {
      this.policy, this.input, this.proxy, this.guard := policy, input, proxy, guard;
      pos, written, customer := 0, [], "";
    }

    /** Reads n bytes, or whatever there is if that is less. */
    method ReadFull(n: nat) returns (data: Option<Bytes>)
      requires Valid()
      modifies this`pos
      ensures Valid()
      ensures if old(pos) + n <= |input| then data == Some(input[old(pos)..old(pos) + n]) && pos == old(pos) + n
              else data.None? && pos == |input|
    {
      if pos + n <= |input| {
        data := Some(input[pos..pos + n]);
        pos := pos + n;
      } else {
        data := None;
        pos := |input|;
      }
    }

    method Write(data: Bytes)
      modifies this`written
      ensures written == old(written) + data
    {
      written := written + data;
    }

    method AuthenticateSocks5() returns (allowed: bool)
      requires Valid()
      modifies this`pos, this`written, this`customer
      ensures Valid()
      ensures customer == (match ParseLogin(input, old(pos))
                           case Login(user, password, _) => if allowed then policy.owner(user, password)
                             else old(customer)
                           case _ => old(customer))
      ensures match ParseLogin(input, old(pos))
              case BadVersion => !allowed && pos == (if old(pos) < |input| then old(pos) + 1 else old(pos)) &&
                written == old(written) + [1, 1]
              case ShortLogin => !allowed && pos == |input| && written == old(written)
              case Login(user, password, next) =>
                allowed == policy.accepts(user, password) && pos == next &&
                    written == old(written) + [1, if allowed then 0 else 1]
    {
      allowed := false;
      var ver := ReadFull(1);
      if ver.None? || ver.value[0] != 1 {
        Write([1, 1]);
        return;
      }
      var ulen := ReadFull(1);
      if ulen.None? {
        return;
      }
      var user := ReadFull(ulen.value[0] as nat);
      if user.None? {
        return;
      }
      var plen := ReadFull(1);
      if plen.None? {
        return;
      }
      var password := ReadFull(plen.value[0] as nat);
      if password.None? {
        return;
      }
      allowed := policy.accepts(user.value, password.value);
      if allowed {
        customer := policy.owner(user.value, password.value);
        Write([1, 0]);
      } else {
        Write([1, 1]);
      }
    }

    /** Reads the address after its type byte. */
    method ReadAddress(atyp: Byte) returns (host: Option<Host>)
      requires Valid() && pos > 0 && input[pos - 1] == atyp && (atyp == 1 || atyp == 3 || atyp == 4)
      modifies this`pos
      ensures Valid()
      ensures match ParseAddress(input, old(pos) - 1)
              case Address(h, next) => host == Some(h) && pos == next
              case _ => host.None? && pos == |input|
    {
      if atyp == 1 {
        var ip := ReadFull(4);
        return if ip.None? then None else Some(IPv4(ip.value));
      }
      if atyp == 4 {
        var ip := ReadFull(16);
        return if ip.None? then None else Some(IPv6(ip.value));
      }
      var length := ReadFull(1);
      if length.None? {
        return None;
      }
      var name := ReadFull(length.value[0] as nat);
      host := if name.None? then None else Some(Domain(name.value));
    }

    /** Asks the guard for one more connection of the customer, which it then counts. */
    method Admit(ghost id: nat, dest: Destination, limit: int, maxPerProxy: int) returns (ok: bool)
      requires id !in guard.calls && ConnectionGuard.Exact(guard.View())
      modifies guard
      ensures ok == Guarded(policy, customer, old(Room(customer, limit, maxPerProxy))).admits(dest)
      ensures ConnectionGuard.Exact(guard.View())
      ensures guard.calls == if ok && customer != ""
              then old(guard.calls)[id := ConnectionGuard.Call(customer, proxy, true)]
                             else old(guard.calls)
    {
      if customer == "" {
        return true;
      }
      if !policy.admits(dest) {
        return false;
      }
      ok := guard.CheckConnectionLimits(id, customer, proxy, limit, maxPerProxy);
      if ok {
        label Checked:
        ConnectionGuard.StepKeepsExact(old(guard.View()),
            ConnectionGuard.Check(id, customer, proxy, limit, maxPerProxy));
        guard.CountConnection(id, customer, proxy);
        ConnectionGuard.StepKeepsExact(old@Checked(guard.View()), ConnectionGuard.Admit(id));
      }
    }

    /** The release that is due when the handler returns after it was admitted. */
    method Release(ghost id: nat)
      requires customer != "" ==> id in guard.calls && guard.calls[id] == ConnectionGuard.Call(customer, proxy, true)
      requires ConnectionGuard.Exact(guard.View())
      modifies guard
      ensures ConnectionGuard.Exact(guard.View())
      ensures guard.calls == if customer != "" then old(guard.calls) - {id} else old(guard.calls)
    {
      if customer != "" {
        guard.ReleaseConnection(id, customer, proxy);
        ConnectionGuard.StepKeepsExact(old(guard.View()), ConnectionGuard.Release(id));
      }
    }

    /** Reads the request up to its port. */
    method ReadDestination() returns (dest: Result<Destination, End>)
      requires Valid()
      modifies this`pos, this`written
      ensures Valid()
      ensures match ParseRequest(input, old(pos))
              case Request(d, next) => dest == Success(d) && pos == next && written == old(written)
              case ShortRequest => dest == Failure(Short) && pos == |input| && written == old(written)
              case NotConnect =>
                dest == Failure(CommandUnsupported) && pos == old(pos) + 4 && written == old(written) + Reply(7)
              case BadType =>
                dest == Failure(AddressUnsupported) && pos == old(pos) + 4 && written == old(written) + Reply(8)
    {
      var header := ReadFull(4);
      if header.None? {
        return Failure(Short);
      }
      assert header.value[1] == input[old(pos) + 1] && header.value[3] == input[old(pos) + 3];
      if header.value[1] != 1 {
        Write(Reply(7));
        return Failure(CommandUnsupported);
      }
      if header.value[3] != 1 && header.value[3] != 3 && header.value[3] != 4 {
        Write(Reply(8));
        return Failure(AddressUnsupported);
      }
      var host := ReadAddress(header.value[3]);
      if host.None? {
        return Failure(Short);
      }
      var port := ReadFull(2);
      if port.None? {
        return Failure(Short);
      }
      dest := Success(Destination(host.value, port.value[0] as nat * 256 + port.value[1] as nat));
    }

    /** Reads the request, asks the guard, dials. However it ends, the guard's counters are exact again and know of no
        other connections than before. */
    method ReadRequest(ghost id: nat, limit: int, maxPerProxy: int) returns (end: End)
      requires Valid() && id !in guard.calls && ConnectionGuard.Exact(guard.View())
      modifies this`pos, this`written, guard
      ensures Valid()
      ensures Handshake(end, pos, written) ==
              AfterLogin(Guarded(policy, customer, old(Room(customer, limit, maxPerProxy))), input, old(pos),
                  old(written))
      ensures ConnectionGuard.Exact(guard.View()) && guard.calls == old(guard.calls)
    {
      var dest := ReadDestination();
      if dest.Failure? {
        return dest.error;
      }
      var admitted := Admit(id, dest.value, limit, maxPerProxy);
      if !admitted {
        Write(Reply(2));
        return GuardRefused(dest.value);
      }
      end := Dial(dest.value);
      Release(id);
    }

    method Dial(dest: Destination) returns (end: End)
      modifies this`written
      ensures end == if policy.reachable(dest) then Connected(dest) else Unreachable(dest)
      ensures written == old(written) + Reply(if policy.reachable(dest) then 0 else 4)
    {
      if !policy.reachable(dest) {
        Write(Reply(4));
        end := Unreachable(dest);
      } else {
        Write(Reply(0));
        end := Connected(dest);
      }
    }

    method ChooseMethod(methods: Bytes) returns (choice: Byte)
      ensures choice == MethodFor(policy.secured, methods)
    {
      choice := 255;
      var hasNoAuth, hasUserPass := false, false;
      for i := 0 to |methods|
        invariant hasNoAuth <==> 0 in methods[..i]
        invariant hasUserPass <==> 2 in methods[..i]
      {
        assert methods[..i + 1] == methods[..i] + [methods[i]];
        if methods[i] == 0 {
          hasNoAuth := true;
        } else if methods[i] == 2 {
          hasUserPass := true;
        }
      }
      assert methods[..|methods|] == methods;
      if policy.secured {
        if hasUserPass {
          choice := 2;
        }
      } else if hasNoAuth {
        choice := 0;
      }
    }

    method ReadGreeting() returns (methods: Option<Bytes>)
      requires Valid() && pos == 0
      modifies this`pos
      ensures Valid()
      ensures match ParseGreeting(input)
              case ShortGreeting => methods.None? && pos == |input|
              case Methods(m, next) => methods == Some(m) && pos == next
    {
      var header := ReadFull(2);
      if header.None? {
        return None;
      }
      assert header.value[1] == input[1];
      methods := ReadFull(header.value[1] as nat);
    }

    /** The greeting and the login; `end` is there when the handshake is over already. */
    method Negotiate() returns (end: Option<End>)
      requires Valid() && pos == 0 && written == [] && customer == ""
      modifies this`pos, this`written, this`customer
      ensures Valid()
      ensures end.Some? ==> Handle(policy, input) == Handshake(end.value, pos, written)
      ensures end.None? ==>
                customer == CustomerOf(policy, input) && GoesOnAt(policy, input) == Some(Onward(pos, written))
      ensures end.Some? ==> GoesOnAt(policy, input).None?
    {
      var methods := ReadGreeting();
      if methods.None? {
        return Some(Short);
      }
      var choice := ChooseMethod(methods.value);
      Write([5, choice]);
      assert written == [5, choice];
      if choice == 255 {
        return Some(NoMethod);
      }
      if choice == 2 {
        var allowed := AuthenticateSocks5();
        if !allowed {
          return Some(LoginRefused);
        }
        assert [5, choice] + [1, 0] == [5, 2, 1, 0];
      }
      end := None;
    }

    /** The whole handshake, the guard answering for the customer who logged in and with the room it has. */
    method HandleSocks5(ghost id: nat, limitsOf: string -> (int, int)) returns (end: End)
      requires Valid() && pos == 0 && written == [] && customer == ""
      requires id !in guard.calls && ConnectionGuard.Exact(guard.View())
      modifies this, guard
      ensures Valid()
      ensures var owner := CustomerOf(policy, input);
              Handshake(end, pos, written) == Handle(Guarded(policy, owner,
                  old(Room(owner, limitsOf(owner).0, limitsOf(owner).1))), input)
      ensures ConnectionGuard.Exact(guard.View()) && guard.calls == old(guard.calls)
    {
      ghost var owner := CustomerOf(policy, input);
      NegotiationIgnoresGuard(policy, Guarded(policy, owner, old(Room(owner, limitsOf(owner).0, limitsOf(owner).1))),
          input);
      var over := Negotiate();
      if over.Some? {
        return over.value;
      }
      end := ReadRequest(id, limitsOf(customer).0, limitsOf(customer).1);
    }
  }

  lemma NegotiationIgnoresGuard(policy: Policy, other: Policy, input: Bytes)
    requires other == policy.(admits := other.admits)
    ensures var at := GoesOnAt(policy, input);
            if at.None?
            then Handle(other, input) == Handle(policy, input)
            else
              && at.value.pos <= |input|
              && Handle(other, input) == AfterLogin(other, input, at.value.pos, at.value.written)
  {
  }

  // ----- what a client sends

  datatype Credentials = Credentials(user: Bytes, password: Bytes)

  /** A greeting, credentials when the server asks for them, and a CONNECT request; the request's version and reserved
      bytes are whatever the client puts there. */
  datatype Client = Client(methods: Bytes, login: Option<Credentials>, version: Byte, reserved: Byte, dest: Destination)

  function EncodeGreeting(methods: Bytes): Bytes
    requires |methods| < 256
  {
    [5, |methods| as Byte] + methods
  }

  function EncodeLogin(c: Credentials): Bytes
    requires |c.user| < 256 && |c.password| < 256
  {
    [1, |c.user| as Byte] + c.user + [|c.password| as Byte] + c.password
  }

  predicate ValidHost(host: Host) {
    match host
    case IPv4(ip) => |ip| == 4
    case Domain(name) => |name| < 256
    case IPv6(ip) => |ip| == 16
  }

  function EncodeHost(host: Host): Bytes
    requires ValidHost(host)
  {
    match host
    case IPv4(ip) => [1] + ip
    case Domain(name) => [3, |name| as Byte] + name
    case IPv6(ip) => [4] + ip
  }

  predicate ValidDestination(dest: Destination) {
    ValidHost(dest.host) && dest.port < 65536
  }

  function EncodePort(port: nat): Bytes
    requires port < 65536
  {
    [(port / 256) as Byte, (port % 256) as Byte]
  }

  function EncodeRequest(version: Byte, reserved: Byte, dest: Destination): Bytes
    requires ValidDestination(dest)
  {
    [version, 1, reserved] + EncodeHost(dest.host) + EncodePort(dest.port)
  }

  predicate ValidClient(c: Client) {
    && |c.methods| < 256 && ValidDestination(c.dest)
    && (c.login.Some? ==> |c.login.value.user| < 256 && |c.login.value.password| < 256)
  }

  function Encode(c: Client): Bytes
    requires ValidClient(c)
  {
    EncodeGreeting(c.methods) + (if c.login.Some? then EncodeLogin(c.login.value) else []) +
    EncodeRequest(c.version, c.reserved, c.dest)
  }

  /** The client speaks the method this server will pick, and its credentials are accepted where they are asked for. */
  predicate Suits(policy: Policy, c: Client) {
    if policy.secured then 2 in c.methods && c.login.Some? && policy.accepts(c.login.value.user, c.login.value.password)
    else 0 in c.methods && c.login.None?
  }

  // ----- each stage accepts exactly the encodings

  predicate At(input: Bytes, pos: nat, part: Bytes) {
    pos + |part| <= |input| && input[pos..pos + |part|] == part
  }

  lemma AtSplit(input: Bytes, pos: nat, first: Bytes, second: Bytes)
    ensures At(input, pos, first + second) <==> At(input, pos, first) && At(input, pos + |first|, second)
  {
    if pos + |first| + |second| <= |input| {
      var whole := input[pos..pos + |first| + |second|];
      assert whole == input[pos..pos + |first|] + input[pos + |first|..pos + |first| + |second|];
      assert whole[..|first|] == input[pos..pos + |first|];
      assert whole[|first|..] == input[pos + |first|..pos + |first| + |second|];
      assert (first + second)[..|first|] == first && (first + second)[|first|..] == second;
    }
  }

  lemma GreetingExactly(input: Bytes, methods: Bytes, next: nat)
    requires |input| > 0 && input[0] == 5
    ensures ParseGreeting(input) == Methods(methods, next) <==>
            |methods| < 256 && At(input, 0, EncodeGreeting(methods)) && next == |EncodeGreeting(methods)|
  {
    if |methods| < 256 {
      AtSplit(input, 0, [5, |methods| as Byte], methods);
    }
  }

  lemma LoginExactly(input: Bytes, pos: nat, c: Credentials, next: nat)
    requires pos <= |input|
    ensures ParseLogin(input, pos) == Login(c.user, c.password, next) <==>
            && |c.user| < 256 && |c.password| < 256
            && At(input, pos, EncodeLogin(c)) && next == pos + |EncodeLogin(c)|
  {
    if |c.user| < 256 && |c.password| < 256 {
      var head := [1, |c.user| as Byte];
      AtSplit(input, pos, head + c.user + [|c.password| as Byte], c.password);
      AtSplit(input, pos, head + c.user, [|c.password| as Byte]);
      AtSplit(input, pos, head, c.user);
    }
  }

  lemma DomainExactly(input: Bytes, pos: nat, name: Bytes, next: nat)
    requires pos < |input|
    ensures ParseAddress(input, pos) == Address(Domain(name), next) <==>
            |name| < 256 && At(input, pos, EncodeHost(Domain(name))) && next == pos + 2 + |name|
  {
    if |name| < 256 {
      var head := [3, |name| as Byte];
      AtSplit(input, pos, head, name);
      assert At(input, pos, head) <==> pos + 2 <= |input| && input[pos] == 3 && input[pos + 1] as nat == |name| by {
        if pos + 2 <= |input| {
          assert input[pos..pos + 2] == [input[pos], input[pos + 1]];
        }
      }
    }
  }

  lemma NumericExactly(input: Bytes, pos: nat, host: Host, next: nat)
    requires pos < |input| && !host.Domain?
    ensures ParseAddress(input, pos) == Address(host, next) <==>
            ValidHost(host) && At(input, pos, EncodeHost(host)) && next == pos + 1 + |host.ip|
  {
    AtSplit(input, pos, [if host.IPv4? then 1 else 4], host.ip);
  }

  lemma HostExactly(input: Bytes, pos: nat, host: Host, next: nat)
    requires pos < |input|
    ensures ParseAddress(input, pos) == Address(host, next) <==>
            ValidHost(host) && At(input, pos, EncodeHost(host)) && next == pos + |EncodeHost(host)|
  {
    if host.Domain? {
      DomainExactly(input, pos, host.name, next);
    } else {
      NumericExactly(input, pos, host, next);
    }
  }

  lemma PortExactly(high: Byte, low: Byte, port: nat)
    ensures high as nat * 256 + low as nat == port <==> port < 65536 && [high, low] == EncodePort(port)
  {
  }

  lemma PortIsThere(input: Bytes, at: nat, port: nat)
    requires port < 65536
    ensures At(input, at, EncodePort(port)) <==>
            at + 2 <= |input| && input[at] as nat * 256 + input[at + 1] as nat == port
  {
    if at + 2 <= |input| {
      PortExactly(input[at], input[at + 1], port);
      assert input[at..at + 2] == [input[at], input[at + 1]];
    }
  }

  lemma RequestSplits(input: Bytes, pos: nat, dest: Destination)
    requires pos + 4 <= |input| && ValidDestination(dest)
    ensures var at := pos + 3 + |EncodeHost(dest.host)|;
            At(input, pos, EncodeRequest(input[pos], input[pos + 2], dest)) <==>
            && input[pos + 1] == 1 && At(input, pos + 3, EncodeHost(dest.host))
            && at + 2 <= |input| && input[at] as nat * 256 + input[at + 1] as nat == dest.port
  {
    var head := [input[pos], 1, input[pos + 2]];
    AtSplit(input, pos, head + EncodeHost(dest.host), EncodePort(dest.port));
    AtSplit(input, pos, head, EncodeHost(dest.host));
    assert input[pos..pos + 3] == [input[pos], input[pos + 1], input[pos + 2]];
    PortIsThere(input, pos + 3 + |EncodeHost(dest.host)|, dest.port);
  }

  lemma RequestExactly(input: Bytes, pos: nat, dest: Destination, next: nat)
    requires pos <= |input|
    ensures ParseRequest(input, pos) == Request(dest, next) <==>
            && ValidDestination(dest) && pos + 3 <= |input|
            && At(input, pos, EncodeRequest(input[pos], input[pos + 2], dest))
            && next == pos + |EncodeRequest(input[pos], input[pos + 2], dest)|
  {
    if pos + 4 <= |input| {
      if next >= 2 {
        HostExactly(input, pos + 3, dest.host, next - 2);
      }
      if ValidDestination(dest) {
        RequestSplits(input, pos, dest);
      }
    }
  }

  // ----- the whole handshake

  /** The destination a handshake got as far as asking the guard about. */
  function Reached(h: Handshake): Option<Destination> {
    match h.end
    case GuardRefused(dest) => Some(dest)
    case Unreachable(dest) => Some(dest)
    case Connected(dest) => Some(dest)
    case _ => None
  }

  /** A first byte other than 5 goes to the HTTP handler, which is not part of this model. */
  predicate IsSocks(input: Bytes) {
    input != [] && input[0] == 5
  }

  ghost predicate Speaks(policy: Policy, c: Client, dest: Destination, input: Bytes, n: nat) {
    ValidClient(c) && Suits(policy, c) && c.dest == dest && At(input, 0, Encode(c)) && n == |Encode(c)|
  }

  function WrittenBefore(policy: Policy): Bytes {
    if policy.secured then [5, 2, 1, 0] else [5, 0]
  }

  lemma AfterLoginExactly(policy: Policy, input: Bytes, pos: nat, written: Bytes, dest: Destination, n: nat)
    requires pos <= |input|
    ensures var h := AfterLogin(policy, input, pos, written);
            && (Reached(h) == Some(dest) && h.consumed == n <==> ParseRequest(input, pos) == Request(dest, n))
            && (Reached(h) == Some(dest) ==>
                  h.end == Ending(policy, dest) && h.written == written + Reply(ReplyTo(h.end)))
  {
  }

  lemma ThreeParts(input: Bytes, first: Bytes, second: Bytes, third: Bytes)
    ensures At(input, 0, first + second + third) <==>
            At(input, 0, first) && At(input, |first|, second) && At(input, |first| + |second|, third)
  {
    AtSplit(input, 0, first + second, third);
    AtSplit(input, 0, first, second);
  }

  lemma EncodingSplits(c: Client, input: Bytes)
    requires ValidClient(c)
    ensures var g, l := |EncodeGreeting(c.methods)|, if c.login.Some? then EncodeLogin(c.login.value) else [];
            At(input, 0, Encode(c)) <==>
            && At(input, 0, EncodeGreeting(c.methods)) && At(input, g, l)
            && At(input, g + |l|, EncodeRequest(c.version, c.reserved, c.dest))
  {
    ThreeParts(input, EncodeGreeting(c.methods), if c.login.Some? then EncodeLogin(c.login.value) else [],
               EncodeRequest(c.version, c.reserved, c.dest));
  }

  lemma NegotiationPasses(policy: Policy, c: Client, input: Bytes)
    requires ValidClient(c) && Suits(policy, c)
    requires ParseGreeting(input) == Methods(c.methods, |EncodeGreeting(c.methods)|)
    requires c.login.Some? ==> At(input, |EncodeGreeting(c.methods)|, EncodeLogin(c.login.value))
    ensures var pos := |EncodeGreeting(c.methods)| + if c.login.Some? then |EncodeLogin(c.login.value)| else 0;
            pos <= |input| && Handle(policy, input) == AfterLogin(policy, input, pos, WrittenBefore(policy))
  {
    if policy.secured {
      var pos := |EncodeGreeting(c.methods)|;
      LoginExactly(input, pos, c.login.value, pos + |EncodeLogin(c.login.value)|);
    }
  }

  lemma GreetingIsThere(c: Client, input: Bytes)
    requires ValidClient(c) && At(input, 0, EncodeGreeting(c.methods))
    ensures ParseGreeting(input) == Methods(c.methods, |EncodeGreeting(c.methods)|)
  {
    assert input[0] == 5 by {
      assert input[..|EncodeGreeting(c.methods)|][0] == 5;
    }
    GreetingExactly(input, c.methods, |EncodeGreeting(c.methods)|);
  }

  lemma RequestPasses(policy: Policy, input: Bytes, pos: nat, written: Bytes, c: Client)
    requires pos <= |input| && ValidClient(c) && At(input, pos, EncodeRequest(c.version, c.reserved, c.dest))
    ensures AfterLogin(policy, input, pos, written) ==
            Handshake(Ending(policy, c.dest), pos + |EncodeRequest(c.version, c.reserved, c.dest)|,
                      written + Reply(ReplyTo(Ending(policy, c.dest))))
  {
    RequestIsThere(input, pos, c.version, c.reserved, c.dest);
  }

  /** A client that suits the policy is understood: its destination is recovered, exactly its bytes are consumed,
      and the replies are the method, the login's success and the outcome. */
  lemma RoundTrip(policy: Policy, c: Client, input: Bytes)
    requires ValidClient(c) && Suits(policy, c) && At(input, 0, Encode(c))
    ensures Handle(policy, input) ==
            Handshake(Ending(policy, c.dest), |Encode(c)|,
                WrittenBefore(policy) + Reply(ReplyTo(Ending(policy, c.dest))))
  {
    EncodingSplits(c, input);
    GreetingIsThere(c, input);
    NegotiationPasses(policy, c, input);
    var pos := |EncodeGreeting(c.methods)| + if c.login.Some? then |EncodeLogin(c.login.value)| else 0;
    RequestPasses(policy, input, pos, WrittenBefore(policy), c);
  }

  lemma RequestIsThere(input: Bytes, pos: nat, version: Byte, reserved: Byte, dest: Destination)
    requires ValidDestination(dest) && At(input, pos, EncodeRequest(version, reserved, dest))
    ensures ParseRequest(input, pos) == Request(dest, pos + |EncodeRequest(version, reserved, dest)|)
  {
    var part := EncodeRequest(version, reserved, dest);
    assert part[0] == version && part[2] == reserved;
    assert input[pos..pos + |part|][0] == input[pos] && input[pos..pos + |part|][2] == input[pos + 2];
    RequestExactly(input, pos, dest, pos + |part|);
  }

  /** What a handshake that reaches the guard has read is the encoding of some client that suits the policy. */
  lemma ReadsAnEncoding(policy: Policy, input: Bytes) returns (c: Client)
    requires IsSocks(input) && Reached(Handle(policy, input)).Some?
    ensures Speaks(policy, c, Reached(Handle(policy, input)).value, input, Handle(policy, input).consumed)
  {
    var h := Handle(policy, input);
    var dest := Reached(h).value;
    var Methods(methods, pos) := ParseGreeting(input);
    GreetingExactly(input, methods, pos);
    var login := None;
    if policy.secured {
      var Login(user, password, next) := ParseLogin(input, pos);
      login := Some(Credentials(user, password));
      LoginExactly(input, pos, login.value, next);
      pos := next;
    }
    AfterLoginExactly(policy, input, pos, WrittenBefore(policy), dest, h.consumed);
    RequestExactly(input, pos, dest, h.consumed);
    c := Client(methods, login, input[pos], input[pos + 2], dest);
    EncodingSplits(c, input);
  }

  /** The handler gets as far as asking for a destination, having read n bytes, exactly when those bytes are the
      encoding of a client that suits the policy and asks for it. */
  lemma ReachesExactly(policy: Policy, input: Bytes, dest: Destination, n: nat)
    ensures IsSocks(input) && Reached(Handle(policy, input)) == Some(dest) && Handle(policy, input).consumed == n <==>
            exists c :: Speaks(policy, c, dest, input, n)
  {
    if IsSocks(input) && Reached(Handle(policy, input)) == Some(dest) && Handle(policy, input).consumed == n {
      var c := ReadsAnEncoding(policy, input);
      assert Speaks(policy, c, dest, input, n);
    }
    forall c | Speaks(policy, c, dest, input, n)
      ensures IsSocks(input) && Reached(Handle(policy, input)) == Some(dest) && Handle(policy, input).consumed == n
    {
      RoundTrip(policy, c, input);
      assert input[..n][0] == Encode(c)[0] == 5;
    }
  }

  /** No proper prefix of an encoding gets as far as asking for any destination. */
  lemma NoPrefixReaches(policy: Policy, c: Client, k: nat)
    requires ValidClient(c) && Suits(policy, c) && k < |Encode(c)|
    ensures IsSocks(Encode(c)[..k]) ==> Reached(Handle(policy, Encode(c)[..k])).None?
  {
    var whole, part := Encode(c), Encode(c)[..k];
    if IsSocks(part) && Reached(Handle(policy, part)).Some? {
      var other := ReadsAnEncoding(policy, part);
      var n := |Encode(other)|;
      assert whole[..n] == part[..n];
      RoundTrip(policy, other, whole);
      assert whole[0..|whole|] == whole;
      RoundTrip(policy, c, whole);
    }
  }
}
