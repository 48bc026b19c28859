/**
 * The Device base class that Motor and the org.ev3dev DCMotor extend: a
 * handle bound to one instance of one device class. How its constructor finds
 * the instance, and how isConnected decides, are not part of this model; both
 * arrive as values.
 */
module Devices {
  import opened Wrappers
  import opened JavaLang
  import opened Sysfs

  class Device {
    const store: AttributeStore
    const cls: string
    const inst: string
    /** Device.isConnected(); the hardware, not the handle, changes it. */
    var connected: bool

    constructor (store: AttributeStore, cls: string, inst: string, connected: bool)
      ensures this.store == store && this.cls == cls && this.inst == inst
      ensures this.connected == connected
    {
      this.store := store;
      this.cls := cls;
      this.inst := inst;
      this.connected := connected;
    }

    function KeyOf(name: string): Key
    {
      Key(cls, inst, name)
    }

    /** Device.getAttribute(name). */
    function GetAttribute(name: string): Result<string, Error>
      reads store
    {
      store.Read(KeyOf(name))
    }

    /** Device.getAttribute(name) parsed with Integer.parseInt. */
    function GetIntAttribute(name: string): Result<int32, Error>
      reads store
    {
      store.ReadInt(KeyOf(name))
    }

    /** Device.getAttribute(name) split by Sysclass.separateSpace. */
    function GetListAttribute(name: string): Result<seq<string>, Error>
      reads store
    {
      store.ReadList(KeyOf(name))
    }

    /** Device.setAttribute(name, value). */
    method SetAttribute(name: string, value: string)
      modifies store
      ensures store.attrs == old(store.attrs)[KeyOf(name) := value]
    {
      store.Write(KeyOf(name), value);
    }
  }

  /** The store after a write that happens only when `connected` holds. */
  function GuardedWrite(connected: bool, attrs: map<Key, string>, k: Key, v: string): map<Key, string>
  {
    if connected then attrs[k := v] else attrs
  }

  /**
   * The check every motor constructor makes before it accepts a port, in its
   * order: the address must be readable and contain "out"; only then is the
   * status read, and it must equal the motor's class name. `mismatch` is the
   * exception the class throws for a wrong status.
   */
  function Admission(address: Result<string, Error>, status: Result<string, Error>,
                     cls: string, mismatch: Error): (r: Outcome<Error>)
    ensures r == Pass <==> address.Success? && Contains(address.value, "out") && status == Success(cls)
    ensures address.Failure? ==> r == Fail(address.error)
    ensures address.Success? && !Contains(address.value, "out") ==> r == Fail(InvalidPortException)
    ensures address.Success? && Contains(address.value, "out") && status.Success? && status.value != cls
            ==> r == Fail(mismatch)
    ensures address.Success? && Contains(address.value, "out") && status.Failure? ==> r == Fail(status.error)
  {
    if address.Failure? then Fail(address.error)
    else if !Contains(address.value, "out") then Fail(InvalidPortException)
    else if status.Failure? then Fail(status.error)
    else if status.value != cls then Fail(mismatch)
    else Pass
  }

  /** Whatever the status, an address without "out" is refused with InvalidPortException. */
  lemma AddressCheckedFirst(address: string, s1: Result<string, Error>, s2: Result<string, Error>,
                            cls: string, mismatch: Error)
    requires !Contains(address, "out")
    ensures Admission(Success(address), s1, cls, mismatch) == Admission(Success(address), s2, cls, mismatch)
                                                          == Fail(InvalidPortException)
  {
  }
}
