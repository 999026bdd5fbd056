/** A UART console reached through x86 I/O ports. The driver learns its port
    base late (from a firmware table); mapping it initialises the UART once
    and puts the console on the registry's list. */
module ConsoleUartPio {
  import Consoles

  class UartPio {
    var portBase: bv16
    const con: Consoles.Console
    ghost var inits: nat

    constructor (c: Consoles.Console)
      ensures portBase == 0 && con == c && inits == 0
    {
      portBase, con, inits := 0, c, 0;
    }

    /** While no port is mapped the console has never been enabled, so it is
        off the list and has no successor. */
    ghost predicate Valid(reg: Consoles.Registry)
      reads this, reg, reg.nodes, con
    {
      reg.Valid() && (portBase == 0 ==> con !in reg.nodes && con.next == null)
    }

    /** Map the UART at port p: ignored when the command line disabled UARTs
        (`nouart`), when a port is already mapped, or when p is zero.
        Otherwise remember the port, initialise the UART and enable the
        console. */
    method Pmap(reg: Consoles.Registry, nouart: bool, p: bv16)
      requires Valid(reg)
      modifies this, reg, reg.nodes
      ensures Valid(reg) && reg.calls == old(reg.calls)
      ensures nouart || old(portBase) != 0 || p == 0 ==>
        portBase == old(portBase) && inits == old(inits) && reg.nodes == old(reg.nodes)
      ensures !nouart && old(portBase) == 0 && p != 0 ==>
        portBase == p && inits == old(inits) + 1 && reg.nodes == old(reg.nodes) + [con]
    {
      if nouart || portBase != 0 || p == 0 {
        return;
      }
      portBase := p;
      inits := inits + 1;
      reg.Enable(con);
    }
  }
}
