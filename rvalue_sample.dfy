/** `MyClass`, an `int` wrapper with a copy constructor, a self-guarded copy
    assignment and an `operator+` that builds a new object from its operands. */
module RValueSample {
  import opened CTypes

  class MyClass {
    /** `m_data` */
    var value: Int32

    /** `MyClass()`: the value 0. */
    constructor ()
      ensures value == 0
    {
      value := 0;
    }

    /** `explicit MyClass(int t_data)` */
    constructor FromInt(t: Int32)
      ensures value == t
    {
      value := t;
    }

    /** Copy constructor: an object with the same value. */
    constructor Copy(a: MyClass)
      ensures value == a.value
    {
      value := a.value;
    }

    /** `data() const`: reports `m_data`; as a function it changes nothing. */
    function Data(): (d: Int32)
      reads this
      ensures d == value
    {
      value
    }

    /** `operator=`: assigning an object to itself changes nothing; otherwise the
        value is copied. Returns the target, as `*this`. */
    method Assign(a: MyClass) returns (self: MyClass)
      modifies this
      ensures self == this
      ensures a == this ==> value == old(value)
      ensures value == old(a.value)
      ensures a != this ==> a.value == old(a.value)
    {
      if this != a {
        value := a.value;
      }
      self := this;
    }

    /** `operator+`: a new object whose value is the sum of the operands' values;
        neither operand changes. Signed overflow is undefined in C++, so the sum
        must fit in an `int`. */
    method Plus(a: MyClass) returns (r: MyClass)
      requires InInt32Range(value as int + a.value as int)
      ensures fresh(r)
      ensures r.Data() as int == Data() as int + a.Data() as int
    {
      r := new MyClass();
      r.value := value + a.value;
    }
  }

  /** The sample's `main`: `a(5)`, `a2 = a`, then `a + MyClass(10)` and
      `a + MyClass(4) = MyClass(12)`, which assign only to temporaries. Returns `a`'s
      value, `a2`'s value and `(a + MyClass(4)).data()`. */
  method MainScenario() returns (aValue: Int32, a2Value: Int32, sumValue: Int32)
    ensures aValue == 5 && a2Value == 5 && sumValue == 9
  {
    var a := new MyClass.FromInt(5);
    var a2 := new MyClass.Copy(a);
    var ten := new MyClass.FromInt(10);
    var _ := a.Plus(ten);
    var four := new MyClass.FromInt(4);
    var sum := a.Plus(four);
    var twelve := new MyClass.FromInt(12);
    var _ := sum.Assign(twelve);
    var again := a.Plus(four);
    aValue, a2Value, sumValue := a.Data(), a2.Data(), again.Data();
  }
}
