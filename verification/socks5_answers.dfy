/** How each handshake ends and what bytes the client gets to see, said of the client's bytes and of what credentials,
    guard and network answer. */
module Socks5Answers {
  import opened Wrappers
  import opened Socks5

  /** The customer is the one the accepted login belongs to; without a login there is none. */
  lemma CustomerIsTheOwner(policy: Policy, c: Client, input: Bytes)
    requires ValidClient(c) && Suits(policy, c) && At(input, 0, Encode(c))
    ensures policy.secured ==>
              c.login.Some? && CustomerOf(policy, input) == policy.owner(c.login.value.user, c.login.value.password)
    ensures !policy.secured ==> CustomerOf(policy, input) == ""
  {
    EncodingSplits(c, input);
    GreetingIsThere(c, input);
    if policy.secured {
      var pos := |EncodeGreeting(c.methods)|;
      LoginExactly(input, pos, c.login.value, pos + |EncodeLogin(c.login.value)|);
    }
  }

  /** A suitable client is refused with reply 2 exactly when it belongs to a customer and the destination is not
      allowed or no connection is left; otherwise it is connected with reply 0 exactly when the destination is
      reachable, and told that it is not with reply 4. */
  lemma OutcomeExactly(policy: Policy, c: Client, input: Bytes, customer: string, room: bool)
    requires ValidClient(c) && Suits(policy, c) && At(input, 0, Encode(c))
    ensures var h := Handle(Guarded(policy, customer, room), input);
            var refused := customer != "" && !(policy.admits(c.dest) && room);
            var code: Byte := if refused then 2 else if policy.reachable(c.dest) then 0 else 4;
            && (h.end == GuardRefused(c.dest) <==> refused)
            && (h.end == Connected(c.dest) <==> !refused && policy.reachable(c.dest))
            && (h.end == Unreachable(c.dest) <==> !refused && !policy.reachable(c.dest))
            && h.consumed == |Encode(c)|
            && h.written == (if policy.secured then [5, 2, 1, 0] else [5, 0]) + [5, code, 0, 1, 0, 0, 0, 0, 0, 0]
  {
    RoundTrip(Guarded(policy, customer, room), c, input);
  }

  // ----- handshakes that end earlier

  /** A greeting that is cut off is not answered. */
  lemma GreetingIsCutOff(policy: Policy, input: Bytes)
    requires |input| < 2 || |input| < 2 + input[1] as nat
    ensures Handle(policy, input) == Handshake(Short, |input|, [])
  {
  }

  /** A client that does not offer the method the server wants is told so, and that is all. */
  lemma MethodIsRefused(policy: Policy, methods: Bytes, input: Bytes)
    requires |methods| < 256 && At(input, 0, EncodeGreeting(methods))
    requires if policy.secured then 2 !in methods else 0 !in methods
    ensures Handle(policy, input) == Handshake(NoMethod, 2 + |methods|, [5, 255])
  {
    GreetingMethods(methods, input);
  }

  lemma GreetingMethods(methods: Bytes, input: Bytes)
    requires |methods| < 256 && At(input, 0, EncodeGreeting(methods))
    ensures ParseGreeting(input) == Methods(methods, 2 + |methods|)
  {
    assert input[..|EncodeGreeting(methods)|][0] == 5;
    GreetingExactly(input, methods, 2 + |methods|);
  }

  /** A login is refused exactly when its first byte is wrong or missing, when it is cut off, or when the credentials
      are not accepted; it is answered in the first and the last case. */
  lemma LoginIsRefused(policy: Policy, methods: Bytes, input: Bytes)
    requires |methods| < 256 && At(input, 0, EncodeGreeting(methods)) && policy.secured && 2 in methods
    ensures var pos, h := 2 + |methods|, Handle(policy, input);
            && (pos == |input| ==> h == Handshake(LoginRefused, pos, [5, 2, 1, 1]))
            && (pos < |input| && input[pos] != 1 ==> h == Handshake(LoginRefused, pos + 1, [5, 2, 1, 1]))
            && (pos < |input| && input[pos] == 1 &&
                (forall c: Credentials :: |c.user| < 256 && |c.password| < 256 ==> !At(input, pos, EncodeLogin(c))) ==>
                  h == Handshake(LoginRefused, |input|, [5, 2]))
  {
    GreetingMethods(methods, input);
    var pos := 2 + |methods|;
    if pos < |input| && input[pos] == 1 {
      match ParseLogin(input, pos)
      case Login(user, password, next) => LoginExactly(input, pos, Credentials(user, password), next);
      case _ =>
    }
  }

  lemma WrongCredentialsAreRefused(policy: Policy, methods: Bytes, c: Credentials, input: Bytes)
    requires |methods| < 256 && |c.user| < 256 && |c.password| < 256 && policy.secured && 2 in methods
    requires At(input, 0, EncodeGreeting(methods)) && At(input, 2 + |methods|, EncodeLogin(c))
    requires !policy.accepts(c.user, c.password)
    ensures Handle(policy, input) == Handshake(LoginRefused, 2 + |methods| + |EncodeLogin(c)|, [5, 2, 1, 1])
  {
    GreetingMethods(methods, input);
    LoginExactly(input, 2 + |methods|, c, 2 + |methods| + |EncodeLogin(c)|);
  }

  /** A request other than CONNECT gets reply 7, one with an unknown address type reply 8, after four bytes each; one
      that is cut off gets none. */
  lemma RequestIsRefused(policy: Policy, input: Bytes, pos: nat, written: Bytes)
    requires pos <= |input|
    ensures var h := AfterLogin(policy, input, pos, written);
            && (pos + 4 > |input| ==> h == Handshake(Short, |input|, written))
            && (pos + 4 <= |input| && input[pos + 1] != 1 ==>
                  h == Handshake(CommandUnsupported, pos + 4, written + [5, 7, 0, 1, 0, 0, 0, 0, 0, 0]))
            && (pos + 4 <= |input| && input[pos + 1] == 1 && input[pos + 3] !in {1, 3, 4} ==>
                  h == Handshake(AddressUnsupported, pos + 4, written + [5, 8, 0, 1, 0, 0, 0, 0, 0, 0]))
            && (pos + 4 <= |input| && input[pos + 1] == 1 && input[pos + 3] in {1, 3, 4} &&
                (forall dest :: ValidDestination(dest) ==>
                   !At(input, pos, EncodeRequest(input[pos], input[pos + 2], dest))) ==>
                  h == Handshake(Short, |input|, written))
  {
    match ParseRequest(input, pos)
    case Request(dest, next) => RequestExactly(input, pos, dest, next);
    case _ =>
  }
}
