# python-ocf syslog adapter — Dafny model

This project models the value-translation layer of `ocf/syslog.py`, the
logging handler that sends Python `logging` records to the operating
system's syslog. It covers four parts:

- **Name tables.** `PriorityNames` and `FacilityNames` map syslog severity
  and facility names to the constants of `<syslog.h>`. `PriorityMap` pairs
  each logging level with a syslog severity.
- **Resolvers.** `Priority` and `Facility` accept an integer, a string or
  anything else (`Arg`). An integer passes through unchanged. A known name
  gives its constant. An unknown string raises `ValueError`. Any other
  argument raises `TypeError`. Both exceptions appear as values of
  `Resolved`, tagged with the table that raised them.
- **Encoding.** `EncodePriority` resolves the facility, then the priority,
  and combines them with Python's `|`. `PyInt.BitOr` models that operator
  on unbounded integers, negative ones included. For table constants the
  result is the PRI value of section 6.2.1 of RFC 5424, which is the
  facility code times 8 plus the severity. `DecodePri` splits it back.
- **Level mapping.** `MapPriority` is the linear scan with early return. It
  is proved equal to `Ceiling`, a recursive ceiling lookup over the table.

The handler is the class `SyslogHandler`. Its facility is resolved once,
when the handler is created. The OS syslog client is the class `Transport`.
It keeps a ghost trace of the `openlog` and `syslog` calls it receives. The
connection is process-wide, so several handlers may share one `Transport`.

Constants that the source imports from Python's `syslog` and `logging`
modules are written out. The severities are EMERG..DEBUG = 0..7. The
facilities are KERN=0, USER=8, MAIL=16, DAEMON=24, AUTH=32, SYSLOG=40,
LPR=48, NEWS=56, UUCP=64 and CRON=72, and LOCAL0..LOCAL7 are 128..184 in
steps of 8. The logging levels are DEBUG=10, INFO=20, WARNING=30, ERROR=40
and CRITICAL=50.

Two points of the handler:

- `emit` (ocf/syslog.py:136-145) has no `try`/`except`, so `Emit` swallows
  no errors.
- The default facility is the integer `syslog.LOG_USER`
  (ocf/syslog.py:123), which resolves to 8.

## Model

| member | source | states |
|---|---|---|
| `Syslog.Priority` | ocf/syslog.py:71-80 | An integer comes back unchanged, with no range check. A name in the table gives that table's constant, which lies in 0..7. An unknown string raises ValueError carrying the name. Any other argument raises TypeError. |
| `Syslog.Facility` | ocf/syslog.py:83-92 | As for `Priority`, against the facility table. A name's constant is a multiple of 8. |
| `Syslog.PriorityName` | ocf/syslog.py:27-36 | The inverse lookup is defined exactly on the eight severities 0..7. |
| `Syslog.FacilityName` | ocf/syslog.py:38-59 | The inverse lookup is defined only on multiples of 8 from 0 to LOG_LOCAL7. |
| `Syslog.PriorityNamesRoundTrip` | ocf/syslog.py:27-36 | A string resolves to `v` exactly when `v`'s name is that string, in both directions. The table is therefore injective and covers 0..7. |
| `Syslog.FacilityNamesRoundTrip` | ocf/syslog.py:38-59 | The same for facilities. `authpriv` and `ftp` are not names. |
| `Syslog.EncodePriority` | ocf/syslog.py:99-108 | The result is an integer exactly when both arguments resolve. The facility is resolved first, so its error wins over the priority's. |
| `Syslog.EncodeDisjointIsSum` | ocf/syslog.py:106-108 | When the resolved facility is a multiple of 8 and the resolved priority lies in 0..7, the encoding is their sum. |
| `Syslog.EncodeIntegers` | ocf/syslog.py:106-108 | Two integers always encode, to their bitwise OR. |
| `Syslog.EncodeBits` | ocf/syslog.py:108 | Every bit of an encoded priority is set in the facility or in the priority. |
| `Syslog.EncodeNamesRoundTrip` | ocf/syslog.py:27-59 | Any facility name with any priority name encodes. Splitting the result as RFC 5424 does gives back exactly the two table constants. |
| `Syslog.TableConstantsDisjoint` | ocf/syslog.py:27-59 | For every pair of table constants, OR equals addition. |
| `Syslog.EncodeExample` | ocf/syslog.py:99-108 | `("local3", "warning")` encodes to LOG_LOCAL3 + LOG_WARNING. An unknown facility name raises the facility's ValueError, even when the priority is also bad. A bad priority name with an integer facility raises the priority's ValueError. |
| `Syslog.DecodePri` | ocf/syslog.py:108 | The split gives a multiple of 8 and a severity in 0..7 that add back to the encoded value. |
| `Syslog.DecodeSum` | ocf/syslog.py:108 | A multiple of 8 plus a severity in 0..7 decodes back into those two. |
| `PyInt.BitOr` | ocf/syslog.py:108 | For non-negative operands, the OR lies between the larger operand and the sum. The result is negative exactly when an operand is. |
| `PyInt.BitOrBits` | ocf/syslog.py:108 | Bit k of `BitOr(a, b)` is set iff bit k of `a` or bit k of `b` is set (two's complement, all integers). |
| `PyInt.DisjointBitOrIsSum` | ocf/syslog.py:108 | OR-ing a multiple of 2^n with a number in [0, 2^n) equals adding them. |
| `Syslog.Ceiling` | ocf/syslog.py:111-115 | The lookup returns the default or the priority of some table row. |
| `Syslog.CeilingFirstAtLeast` | ocf/syslog.py:112-114 | If row i is the first whose level is at or above `level`, the lookup returns row i's priority. |
| `Syslog.CeilingAboveAll` | ocf/syslog.py:115 | A level above every row yields the default. |
| `Syslog.CeilingAntitone` | ocf/syslog.py:61-68 | Over a table in ascending level order, a higher level never yields a larger (less severe) priority. |
| `Syslog.PriorityMapAscending` | ocf/syslog.py:61-68 | The level table is in ascending level order and descending severity order. Each of its severities is at least LOG_CRIT. |
| `Syslog.MapPriority` | ocf/syslog.py:111-115 | The linear scan with early return computes the ceiling lookup over the level table, with LOG_CRIT as the default. |
| `Syslog.SeverityAntitone` | ocf/syslog.py:111-115 | If `l1 <= l2`, level `l1` maps to a severity number no smaller than `l2`'s. |
| `Syslog.SeverityRange` | ocf/syslog.py:62-68 | Every level maps into LOG_CRIT..LOG_DEBUG (2..7). |
| `Syslog.SeverityByInterval` | ocf/syslog.py:62-68 | Interval by interval: up to 10 gives DEBUG, up to 20 INFO, up to 30 WARNING, up to 40 ERR, and above 40 CRIT. |
| `Syslog.SeverityExamples` | ocf/syslog.py:111-115 | 0 gives DEBUG, 10 DEBUG, 25 WARNING, 40 ERR and 51 CRIT. |
| `Syslog.Transport.OpenLog` | ocf/syslog.py:131-134 | Appends one `openlog` call with its ident, options and facility to the trace. Nothing else changes. |
| `Syslog.Transport.Syslog` | ocf/syslog.py:145 | Appends one `syslog` call with its priority and message to the trace. |
| `Syslog.SyslogHandler.constructor` | ocf/syslog.py:129 | The handler stores the resolved facility. |
| `Syslog.SyslogHandler.Open` | ocf/syslog.py:123-134 | If the facility resolves, the result is a fresh handler holding the resolved integer, and exactly one `openlog` call with that facility is added. If it does not resolve, the facility's error is raised and the transport is left untouched. |
| `Syslog.SyslogHandler.Emit` | ocf/syslog.py:136-145 | Appends exactly one `syslog` call carrying the handler's facility OR-ed with the record level's severity. When the facility is a multiple of 8, that value splits back into the facility and the severity. |

## Left out

- `self.format(record)` and the `logging.Handler` base class belong to the
  external `logging` library. `Emit` takes the record's level and its
  already formatted message as parameters.
- The OS syslog client (`syslog.openlog`, `syslog.syslog`) is external I/O.
  It appears only as calls recorded in `Transport`'s ghost trace, and those
  calls never fail.
- `Syslog.SyslogHandler.Emit` does not model what happens when formatting
  or the transport raises. The source lets such exceptions escape, and the
  model has no failing transport.
- Python's `bool` being an `int`, and `str` subclasses in the
  `str(x) == x` test, are collapsed into the three cases of `Arg`.
- `Syslog.Priority` and `Syslog.Facility` follow Python 3's `int` and `str`.
  The source also imports for Python 2 (ocf/syslog.py:21). On Python 2 a
  `long` fails `isinstance(x, int)` and raises TypeError, and `str()` of a
  non-ASCII `unicode` raises UnicodeEncodeError. The model has neither
  case: every integer is an `IntArg` and passes through, and every string
  is a `StrArg`.
- The constants are the common Linux values. Platform variation is not
  modelled. The commented-out `authpriv` and `ftp` facilities are absent,
  as in the source.
- The `_facility` alias exists only to avoid name shadowing in Python and
  has no counterpart here.
