/** Utilities of the older Avahi backend (linux/avahi_util.rs). */
module LinuxAvahiUtil {
  import opened Common
  import AvahiUtil

  const AVAHI_IF_UNSPEC: i32 := -1

  /** `interface_index`: `Unspec` is `AVAHI_IF_UNSPEC`; `i as i32` wraps past `i32::MAX`. */
  function InterfaceIndex(interface: NetworkInterface): (r: i32)
    ensures interface.Unspec? ==> r == AVAHI_IF_UNSPEC
    ensures interface.AtIndex? && interface.index <= I32_MAX ==> r == interface.index
    ensures interface.AtIndex? && interface.index > I32_MAX ==> r == interface.index - 0x1_0000_0000
  {
    match interface
    case Unspec => AVAHI_IF_UNSPEC
    case AtIndex(i) => if i <= I32_MAX then i else i - 0x1_0000_0000
  }

  /** `sys_exec`: the closure's single result decides; the error text carries the
      native error string between backticks. */
  function SysExec(code: i32, message: string, getError: i32 -> string): (r: Result<Unit>)
    ensures r.Ok? <==> code >= 0
    ensures r.Err? ==> r.msg == message + ": `" + getError(code) + "`"
  {
    if code < 0 then Err(message + ": `" + getError(code) + "`") else Ok(Unit)
  }

  /** Both Avahi backends agree on these two conversions. */
  lemma AgreesWithAvahiUtil(interface: NetworkInterface, code: i32, message: string, getError: i32 -> string)
    ensures InterfaceIndex(interface) == AvahiUtil.InterfaceIndex(interface)
    ensures SysExec(code, message, getError) == AvahiUtil.SysExec(code, message, getError)
  {
  }
}
