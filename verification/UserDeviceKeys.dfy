/** Users, devices and the `uid-device` key (`lib/realtime/src/entities.rs`). */
module UserDeviceKeys {
  /** `connectedAt` is part of a user's identity: a reconnect in a later second is another user. */
  datatype User = User(uid: int, deviceId: string, connectedAt: int)

  datatype UserDevice = UserDevice(deviceId: string, uid: int)

  function DeviceOf(u: User): UserDevice {
    UserDevice(u.deviceId, u.uid)
  }

  predicate IsDigit(c: char) {
    '0' <= c <= '9'
  }

  function Digit(d: nat): (c: char)
    requires d < 10
    ensures IsDigit(c) && c as int == '0' as int + d
  {
    ('0' as int + d) as char
  }

  function Decimal(n: nat): (s: string)
    ensures s != [] && forall c :: c in s ==> IsDigit(c)
    ensures n < 10 <==> |s| == 1
  {
    if n < 10 then [Digit(n)] else Decimal(n / 10) + [Digit(n % 10)]
  }

  function IntToString(i: int): string {
    if i < 0 then "-" + Decimal(-i) else Decimal(i)
  }

  /** `RealtimeUser::user_device`. */
  function UserDeviceKey(u: User): string {
    IntToString(u.uid) + "-" + u.deviceId
  }

  lemma {:induction false} DecimalInjective(m: nat, n: nat)
    requires Decimal(m) == Decimal(n)
    ensures m == n
  {
    var s, t := Decimal(m), Decimal(n);
    assert s[|s| - 1] == Digit(m % 10) && t[|t| - 1] == Digit(n % 10);
    if m >= 10 {
      assert Decimal(m / 10) == s[..|s| - 1] == t[..|t| - 1] == Decimal(n / 10);
      DecimalInjective(m / 10, n / 10);
    }
  }

  /** A run of digits ends at the first dash. */
  lemma DashFollowsDigits(a: string, x: string)
    requires forall c :: c in a ==> IsDigit(c)
    ensures var s := a + "-" + x;
      && s[|a|] == '-' && s[..|a|] == a && s[|a| + 1..] == x
      && forall k :: 0 <= k < |a| ==> s[k] != '-'
  {
    assert forall k :: 0 <= k < |a| ==> a[k] in a;
  }

  lemma SplitAtDash(a: string, x: string, b: string, y: string)
    requires forall c :: c in a ==> IsDigit(c)
    requires forall c :: c in b ==> IsDigit(c)
    requires a + "-" + x == b + "-" + y
    ensures a == b && x == y
  {
    DashFollowsDigits(a, x);
    DashFollowsDigits(b, y);
    assert |a| == |b|;
  }

  /** The key tells any two devices apart, although device ids may contain dashes and digits. */
  lemma UserDeviceKeyInjective(u: User, v: User)
    ensures UserDeviceKey(u) == UserDeviceKey(v) <==> DeviceOf(u) == DeviceOf(v)
  {
    if UserDeviceKey(u) == UserDeviceKey(v) {
      var s, t := UserDeviceKey(u), UserDeviceKey(v);
      var a := Decimal(if u.uid < 0 then -u.uid else u.uid);
      var b := Decimal(if v.uid < 0 then -v.uid else v.uid);
      assert a[0] in a && b[0] in b;
      assert s[0] == (if u.uid < 0 then '-' else a[0]);
      assert t[0] == (if v.uid < 0 then '-' else b[0]);
      if u.uid < 0 {
        assert s[1..] == a + "-" + u.deviceId && t[1..] == b + "-" + v.deviceId;
      } else {
        assert s == a + "-" + u.deviceId && t == b + "-" + v.deviceId;
      }
      SplitAtDash(a, u.deviceId, b, v.deviceId);
      DecimalInjective(if u.uid < 0 then -u.uid else u.uid, if v.uid < 0 then -v.uid else v.uid);
    }
  }

  /** The digits of a number read back as that number. */
  function Value(digits: string): nat {
    if digits == [] then 0 else 10 * Value(digits[..|digits| - 1]) + DigitValue(digits[|digits| - 1])
  }

  function DigitValue(c: char): nat {
    if IsDigit(c) then c as int - '0' as int else 0
  }

  lemma {:induction false} DecimalValue(n: nat)
    ensures Value(Decimal(n)) == n && (Decimal(n)[0] == '0' ==> n == 0)
  {
    var s := Decimal(n);
    if n >= 10 {
      DecimalValue(n / 10);
      assert s[..|s| - 1] == Decimal(n / 10) && s[0] == Decimal(n / 10)[0];
    } else {
      assert s[..0] == [];
    }
  }

  /** The key is the decimal number of the user, signed if negative, a dash, and the device. */
  lemma UserDeviceKeyReads(u: User) returns (digits: string)
    ensures UserDeviceKey(u) == (if u.uid < 0 then "-" else "") + digits + "-" + u.deviceId
    ensures Value(digits) == (if u.uid < 0 then -u.uid else u.uid) && forall c :: c in digits ==> IsDigit(c)
    ensures digits != [] && (digits[0] == '0' ==> u.uid == 0)
  {
    digits := Decimal(if u.uid < 0 then -u.uid else u.uid);
    DecimalValue(if u.uid < 0 then -u.uid else u.uid);
  }
}
