/**
 * Two helpers of the EC2 deployment script: turning an instance's internal
 * host name into its IP address, and refusing a security group name that
 * contains a full stop. Ruby's `str[pattern] = replacement` rewrites the
 * first occurrence of `pattern` and raises `IndexError` when there is none;
 * that failure is a `Failure` here.
 */
module Ec2Names {
  import opened Outcomes

  const HostPrefix: string := "ip-"
  const RegionSuffix: string := ".eu-west-1.compute.internal"
  const GroupNameMessage: string := "--group parameter must not contain full stops"

  /** The exception Ruby raises when `str[pattern] = ...` finds no `pattern`. */
  datatype RubyError = IndexError(message: string)

  /** `pattern` occurs in `s` at index `j`. */
  predicate Occurs(s: string, pattern: string, j: nat) {
    j + |pattern| <= |s| && s[j..j + |pattern|] == pattern
  }

  /** The first index at or after `from` where `pattern` occurs, if any. */
  function FindFrom(s: string, pattern: string, from: nat): (r: Option<nat>)
    ensures r.Some? ==> from <= r.value && Occurs(s, pattern, r.value)
    ensures r.Some? ==> forall j: nat :: from <= j < r.value ==> !Occurs(s, pattern, j)
    ensures r.None? ==> forall j: nat :: from <= j ==> !Occurs(s, pattern, j)
    decreases |s| - from
  {
    if from + |pattern| > |s| then None
    else if s[from..from + |pattern|] == pattern then Some(from)
    else FindFrom(s, pattern, from + 1)
  }

  /** The first occurrence of `pattern` in `s` is at `k`. */
  lemma FirstAt(s: string, pattern: string, k: nat)
    requires Occurs(s, pattern, k) && forall j: nat :: j < k ==> !Occurs(s, pattern, j)
    ensures FindFrom(s, pattern, 0) == Some(k)
  {
  }

  /** `s[pattern] = replacement`: the first occurrence replaced, or `IndexError` when there is none. */
  function ReplaceFirst(s: string, pattern: string, replacement: string): Result<string, RubyError> {
    match FindFrom(s, pattern, 0)
    case None => Failure(IndexError("string not matched"))
    case Some(j) => Success(s[..j] + replacement + s[j + |pattern|..])
  }

  /** The rewrite fails exactly when the pattern occurs nowhere. */
  lemma ReplaceFirstFails(s: string, pattern: string, replacement: string)
    ensures ReplaceFirst(s, pattern, replacement).Failure? <==> forall j: nat :: !Occurs(s, pattern, j)
  {
  }

  /**
   * `internalNameToIpAddress`: on a copy of the name, delete the first
   * "ip-" and the first ".eu-west-1.compute.internal", then turn the first
   * three '-' into '.'. Any of the five rewrites that finds nothing fails.
   */
  function IpAddressOf(internalName: string): Result<string, RubyError> {
    match ReplaceFirst(internalName, HostPrefix, "")
    case Failure(e) => Failure(e)
    case Success(withoutPrefix) =>
      match ReplaceFirst(withoutPrefix, RegionSuffix, "")
      case Failure(e) => Failure(e)
      case Success(withoutSuffix) => DashesToDots(withoutSuffix)
  }

  /**
   * `internalNameToIpAddress` as the script runs it: the copy `internalIp`
   * rewritten in place five times, the first rewrite that finds nothing
   * raising.
   */
  method InternalNameToIpAddress(internalName: string) returns (r: Result<string, RubyError>)
    ensures r == IpAddressOf(internalName)
  {
    var internalIp := internalName;
    var step := ReplaceFirst(internalIp, HostPrefix, "");
    if step.Failure? { return Failure(step.error); }
    internalIp := step.value;
    step := ReplaceFirst(internalIp, RegionSuffix, "");
    if step.Failure? { return Failure(step.error); }
    internalIp := step.value;
    step := ReplaceFirst(internalIp, "-", ".");
    if step.Failure? { return Failure(step.error); }
    internalIp := step.value;
    step := ReplaceFirst(internalIp, "-", ".");
    if step.Failure? { return Failure(step.error); }
    internalIp := step.value;
    step := ReplaceFirst(internalIp, "-", ".");
    if step.Failure? { return Failure(step.error); }
    internalIp := step.value;
    return Success(internalIp);
  }

  /** The three `internal_ip["-"] = "."` rewrites, in turn. */
  function DashesToDots(s: string): Result<string, RubyError> {
    match ReplaceFirst(s, "-", ".")
    case Failure(e) => Failure(e)
    case Success(first) =>
      match ReplaceFirst(first, "-", ".")
      case Failure(e) => Failure(e)
      case Success(second) => ReplaceFirst(second, "-", ".")
  }

  /** A part of an address: no '-' and no '.' in it. */
  predicate Plain(x: string) {
    forall i :: 0 <= i < |x| ==> x[i] != '-' && x[i] != '.'
  }

  /** The internal name EC2 gives an instance whose address is `a.b.c.d`. */
  function InternalName(a: string, b: string, c: string, d: string): string {
    HostPrefix + a + "-" + b + "-" + c + "-" + d + RegionSuffix
  }

  function DottedQuad(a: string, b: string, c: string, d: string): string {
    a + "." + b + "." + c + "." + d
  }

  /** Replacing the first '-' of `x + "-" + y` when `x` has none. */
  lemma {:induction false} FirstDash(x: string, y: string)
    requires forall i :: 0 <= i < |x| ==> x[i] != '-'
    ensures ReplaceFirst(x + "-" + y, "-", ".") == Success(x + "." + y)
  {
    var s := x + "-" + y;
    forall j: nat | j < |x|
      ensures !Occurs(s, "-", j)
    {
      assert s[j..j + 1][0] == x[j];
    }
    assert s[|x|..|x| + 1] == "-";
    FirstAt(s, "-", |x|);
    assert s[..|x|] == x && s[|x| + 1..] == y;
  }

  /** Nothing to replace in a string without '-'. */
  lemma NoDash(x: string)
    requires forall i :: 0 <= i < |x| ==> x[i] != '-'
    ensures ReplaceFirst(x, "-", ".").Failure?
  {
    ReplaceFirstFails(x, "-", ".");
    forall j: nat | j + 1 <= |x|
      ensures !Occurs(x, "-", j)
    {
      assert x[j..j + 1][0] == x[j];
    }
  }

  /** Deleting the first "ip-" of a name that starts with it. */
  lemma StripPrefix(rest: string)
    ensures ReplaceFirst(HostPrefix + rest, HostPrefix, "") == Success(rest)
  {
    var name := HostPrefix + rest;
    assert |HostPrefix| == 3 && name[0..3] == HostPrefix;
    FirstAt(name, HostPrefix, 0);
    assert name[..0] + "" + name[3..] == rest;
  }

  /** Deleting the region suffix after `q`, which has no '.' for the suffix to start at. */
  lemma StripSuffix(q: string)
    requires forall i :: 0 <= i < |q| ==> q[i] != '.'
    ensures ReplaceFirst(q + RegionSuffix, RegionSuffix, "") == Success(q)
  {
    var rest := q + RegionSuffix;
    forall j: nat | j < |q|
      ensures !Occurs(rest, RegionSuffix, j)
    {
      assert rest[j] == q[j] != RegionSuffix[0];
      assert j + |RegionSuffix| <= |rest| ==> rest[j..j + |RegionSuffix|][0] == rest[j];
    }
    assert rest[|q|..|q| + |RegionSuffix|] == RegionSuffix;
    FirstAt(rest, RegionSuffix, |q|);
    assert rest[..|q|] + "" + rest[|q| + |RegionSuffix|..] == q;
  }

  /**
   * Deleting the leading "ip-" and then the region suffix leaves `q`, when
   * `q` has no '.' (so the suffix cannot start inside it).
   */
  lemma StripName(q: string)
    requires forall i :: 0 <= i < |q| ==> q[i] != '.'
    ensures ReplaceFirst(HostPrefix + q + RegionSuffix, HostPrefix, "") == Success(q + RegionSuffix)
    ensures ReplaceFirst(q + RegionSuffix, RegionSuffix, "") == Success(q)
  {
    StripPrefix(q + RegionSuffix);
    assert HostPrefix + (q + RegionSuffix) == HostPrefix + q + RegionSuffix;
    StripSuffix(q);
  }

  lemma FirstOfThreeDashes(a: string, b: string, c: string, d: string)
    requires Plain(a)
    ensures ReplaceFirst(a + "-" + b + "-" + c + "-" + d, "-", ".") == Success(a + "." + b + "-" + c + "-" + d)
  {
    FirstDash(a, b + "-" + c + "-" + d);
    assert a + "-" + (b + "-" + c + "-" + d) == a + "-" + b + "-" + c + "-" + d;
    assert a + "." + (b + "-" + c + "-" + d) == a + "." + b + "-" + c + "-" + d;
  }

  lemma SecondOfThreeDashes(a: string, b: string, c: string, d: string)
    requires Plain(a) && Plain(b)
    ensures ReplaceFirst(a + "." + b + "-" + c + "-" + d, "-", ".") == Success(a + "." + b + "." + c + "-" + d)
  {
    FirstDash(a + "." + b, c + "-" + d);
    assert a + "." + b + "-" + (c + "-" + d) == a + "." + b + "-" + c + "-" + d;
    assert a + "." + b + "." + (c + "-" + d) == a + "." + b + "." + c + "-" + d;
  }

  lemma ThirdOfThreeDashes(a: string, b: string, c: string, d: string)
    requires Plain(a) && Plain(b) && Plain(c)
    ensures ReplaceFirst(a + "." + b + "." + c + "-" + d, "-", ".") == Success(a + "." + b + "." + c + "." + d)
  {
    FirstDash(a + "." + b + "." + c, d);
  }

  /** The three '-' rewrites turn `a-b-c-d` into `a.b.c.d`. */
  lemma ThreeDashes(a: string, b: string, c: string, d: string)
    requires Plain(a) && Plain(b) && Plain(c) && Plain(d)
    ensures DashesToDots(a + "-" + b + "-" + c + "-" + d) == Success(DottedQuad(a, b, c, d))
  {
    FirstOfThreeDashes(a, b, c, d);
    SecondOfThreeDashes(a, b, c, d);
    ThirdOfThreeDashes(a, b, c, d);
  }

  /** The script reads back the address of every instance name EC2 hands out. */
  lemma AddressOfInternalName(a: string, b: string, c: string, d: string)
    requires Plain(a) && Plain(b) && Plain(c) && Plain(d)
    ensures IpAddressOf(InternalName(a, b, c, d)) == Success(DottedQuad(a, b, c, d))
  {
    var q := a + "-" + b + "-" + c + "-" + d;
    assert InternalName(a, b, c, d) == HostPrefix + q + RegionSuffix;
    StripName(q);
    ThreeDashes(a, b, c, d);
  }

  /** Once prefix and suffix are gone, `a-b-c` has only two '-' to rewrite. */
  lemma TwoDashes(a: string, b: string, c: string)
    requires Plain(a) && Plain(b) && Plain(c)
    ensures DashesToDots(a + "-" + b + "-" + c).Failure?
  {
    assert ReplaceFirst(a + "-" + b + "-" + c, "-", ".") == Success(a + "." + b + "-" + c) by {
      FirstDash(a, b + "-" + c);
      assert a + "-" + (b + "-" + c) == a + "-" + b + "-" + c;
      assert a + "." + (b + "-" + c) == a + "." + b + "-" + c;
    }
    FirstDash(a + "." + b, c);
    NoDash(a + "." + b + "." + c);
  }

  /** A name with only three parts has too few '-' to rewrite: `IndexError`. */
  lemma ThreePartsFail(a: string, b: string, c: string)
    requires Plain(a) && Plain(b) && Plain(c)
    ensures IpAddressOf(HostPrefix + (a + "-" + b + "-" + c) + RegionSuffix).Failure?
  {
    var q := a + "-" + b + "-" + c;
    StripName(q);
    TwoDashes(a, b, c);
  }

  /** A name without "ip-" is refused with `IndexError`. */
  lemma NotAnInternalName(name: string)
    requires forall j: nat :: !Occurs(name, HostPrefix, j)
    ensures IpAddressOf(name) == Failure(IndexError("string not matched"))
  {
    ReplaceFirstFails(name, HostPrefix, "");
  }

  /** The host part of the example name, as the parts it is made of. */
  lemma ExampleHost()
    ensures HostPrefix + "10" + "-" + "48" + "-" + "7" + "-" + "1" == "ip-10-48-7-1"
  {
  }

  lemma ExampleName()
    ensures InternalName("10", "48", "7", "1") == "ip-10-48-7-1" + RegionSuffix
  {
    ExampleHost();
  }

  lemma ExampleQuad()
    ensures DottedQuad("10", "48", "7", "1") == "10.48.7.1"
  {
  }

  /** The instance named "ip-10-48-7-1.eu-west-1.compute.internal" is at 10.48.7.1. */
  lemma ExampleAddress(name: string)
    requires name == "ip-10-48-7-1" + RegionSuffix
    ensures IpAddressOf(name) == Success("10.48.7.1")
  {
    AddressOfInternalName("10", "48", "7", "1");
    ExampleName();
    ExampleQuad();
  }

  /** Whether `s` holds a full stop, scanning it as the pattern `/\./` does. */
  function HasFullStop(s: string): (r: bool)
    ensures r <==> exists i :: 0 <= i < |s| && s[i] == '.'
  {
    if s == [] then false
    else s[0] == '.' || HasFullStop(s[1..])
  }

  /** `validateGroupName`: the message printed before exiting, for a group name with a full stop. */
  function ValidateGroupName(group: string): (r: Option<string>)
    ensures r.Some? <==> '.' in group
    ensures r.Some? ==> r.value == GroupNameMessage
  {
    if HasFullStop(group) then Some(GroupNameMessage) else None
  }
}
