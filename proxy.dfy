/** `Proxy<Create, Destroy, Validate>`: owns one GL name, destroys it unconditionally when destroyed
    or overwritten by a move, and can check it against the driver. */
module Proxies {
  import opened Results
  import opened GlTypes
  import opened Driver
  import opened Text

  /** `GLError`, raised for a name the driver does not recognise, with its message. */
  datatype ProxyError = InvalidObjectName(message: string)

  /** The text the exception message is built from. */
  const MessagePrefix := "Invalid object name: "

  /** 10 to the power `k`. */
  function Pow10(k: nat): (p: nat)
    ensures p >= 1
  {
    if k == 0 then 1 else 10 * Pow10(k - 1)
  }

  /** A number below 10^k has at most `k` decimal digits. */
  lemma {:induction false} DecimalLength(n: nat, k: nat)
    requires 1 <= k && n < Pow10(k)
    ensures |Decimal(n)| <= k
    decreases k
  {
    if n >= 10 {
      assert Pow10(k) == 10 * Pow10(k - 1);
      assert Pow10(1) == 10;
      assert n / 10 < Pow10(k - 1);
      DecimalLength(n / 10, k - 1);
    }
  }

  /** A GL name has at most ten decimal digits, fewer than the characters of the prefix. */
  lemma NameDigitsFit(name: GLuint)
    ensures |Decimal(name)| <= 10 < |MessagePrefix|
  {
    assert Pow10(10) == 10_000_000_000;
    DecimalLength(name, 10);
  }

  /** The message as the constructor builds it: an `ostringstream` initialised with the prefix
      starts writing at its beginning, so the digits of the name overwrite the first characters of
      the prefix rather than follow it. */
  function MessageAsWritten(name: GLuint): (m: string)
    ensures |m| == |MessagePrefix|
    ensures |Decimal(name)| < |m| && m[..|Decimal(name)|] == Decimal(name)
  {
    NameDigitsFit(name);
    Decimal(name) + MessagePrefix[|Decimal(name)|..]
  }

  /** As written, no message starts with the prefix: it starts with a digit of the name. */
  lemma MessageOverwritesPrefix(name: GLuint)
    ensures !HasPrefix(MessageAsWritten(name), MessagePrefix)
  {
    var m := MessageAsWritten(name);
    var d := Decimal(name);
    assert m[0] == d[0] by {
      assert m[..|d|][0] == d[0];
    }
    FirstCharDiffers(m, MessagePrefix);
  }

  /** As written, name 42 gives the message `42valid object name: `. */
  lemma MessageFortyTwo()
    ensures MessageAsWritten(42) == "42valid object name: "
  {
    FortyTwoDigits();
    assert MessagePrefix[2..] == "valid object name: ";
  }

  lemma FortyTwoDigits()
    ensures Decimal(42) == "42"
  {
    assert Decimal(4) == "4";
  }

  /** The message the constructor evidently means: the prefix followed by the decimal name, from
      which the name reads back. */
  function ErrorMessage(name: GLuint): (m: string)
    ensures HasPrefix(m, MessagePrefix)
    ensures ParseDecimal(m[|MessagePrefix|..]) == Some(name)
  {
    DecimalRoundTrip(name);
    assert (MessagePrefix + Decimal(name))[|MessagePrefix|..] == Decimal(name);
    MessagePrefix + Decimal(name)
  }

  class Proxy {
    var name: GLuint
    const driver: Driver

    /** Holds the name `Create` returned; nothing is destroyed. */
    constructor(driver: Driver, created: GLuint)
      ensures this.driver == driver && name == created
    {
      this.driver := driver;
      name := created;
    }

    /** Takes ownership of an existing name, or throws when the driver does not recognise it. The
        destructor of a proxy whose constructor threw never runs, so nothing is destroyed. The
        error carries the intended message (see `MessageAsWritten` for the text as built). */
    static method FromName(driver: Driver, name: GLuint) returns (r: Result<Proxy, ProxyError>)
      ensures r.Ok? <==> driver.validate(name)
      ensures r.Ok? ==> fresh(r.value) && r.value.driver == driver && r.value.name == name
      ensures r.Err? ==> r.error == InvalidObjectName(ErrorMessage(name))
    {
      var p := new Proxy(driver, name);
      var valid := p.Validate();
      if !valid {
        return Err(InvalidObjectName(ErrorMessage(name)));
      }
      return Ok(p);
    }

    /** The destructor: destroys the held name unconditionally, even zero. */
    method Dispose()
      modifies driver`destroyed
      ensures driver.destroyed == old(driver.destroyed) + [name]
    {
      driver.Destroy(name);
    }

    /** The move constructor: takes the other proxy's name and sets the other's to zero. */
    constructor Move(other: Proxy)
      modifies other`name
      ensures driver == other.driver && name == old(other.name) && other.name == 0
    {
      driver := other.driver;
      name := other.name;
      new;
      other.name := 0;
    }

    /** Move assignment: destroys the held name, takes the other's and sets the other's to zero. A
        proxy moved into itself destroys its name and is left holding zero. */
    method MoveAssign(other: Proxy)
      modifies this`name, other`name, driver`destroyed
      ensures driver.destroyed == old(driver.destroyed) + [old(name)]
      ensures other != this ==> name == old(other.name) && other.name == 0
      ensures other == this ==> name == 0
    {
      driver.Destroy(name);
      name := other.name;
      other.name := 0;
    }

    /** `validate`: the driver's verdict on the held name; nothing changes. */
    method Validate() returns (valid: bool)
      ensures valid == driver.validate(name)
    {
      valid := driver.validate(name);
    }

    /** `getName`: the held name; nothing changes. */
    function GetName(): (n: GLuint)
      reads this
      ensures n == name
    {
      name
    }
  }
}
