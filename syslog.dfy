/**
 * The value-translation layer of a logging handler that writes to the
 * operating system's syslog: facility and priority names become the
 * integer constants of <syslog.h>, the two combine into one encoded
 * priority (the PRI value of section 6.2.1 of RFC 5424: facility code
 * times 8 plus severity), and the logging framework's numeric levels map
 * onto syslog severities by a ceiling lookup in an ascending table.
 */
module Syslog {
  import opened PyInt

  // Severities, as <syslog.h> defines them.
  const LOG_EMERG: int := 0
  const LOG_ALERT: int := 1
  const LOG_CRIT: int := 2
  const LOG_ERR: int := 3
  const LOG_WARNING: int := 4
  const LOG_NOTICE: int := 5
  const LOG_INFO: int := 6
  const LOG_DEBUG: int := 7

  // Facilities, as <syslog.h> defines them: already shifted left by 3.
  const LOG_KERN: int := 0
  const LOG_USER: int := 8
  const LOG_MAIL: int := 16
  const LOG_DAEMON: int := 24
  const LOG_AUTH: int := 32
  const LOG_SYSLOG: int := 40
  const LOG_LPR: int := 48
  const LOG_NEWS: int := 56
  const LOG_UUCP: int := 64
  const LOG_CRON: int := 72
  const LOG_LOCAL0: int := 128
  const LOG_LOCAL1: int := 136
  const LOG_LOCAL2: int := 144
  const LOG_LOCAL3: int := 152
  const LOG_LOCAL4: int := 160
  const LOG_LOCAL5: int := 168
  const LOG_LOCAL6: int := 176
  const LOG_LOCAL7: int := 184

  // The logging framework's numeric levels.
  const LEVEL_DEBUG: int := 10
  const LEVEL_INFO: int := 20
  const LEVEL_WARNING: int := 30
  const LEVEL_ERROR: int := 40
  const LEVEL_CRITICAL: int := 50

  const PriorityNames: map<string, int> := map[
    "emerg" := LOG_EMERG,
    "alert" := LOG_ALERT,
    "crit" := LOG_CRIT,
    "err" := LOG_ERR,
    "warning" := LOG_WARNING,
    "notice" := LOG_NOTICE,
    "info" := LOG_INFO,
    "debug" := LOG_DEBUG
  ]

  /** "authpriv" and "ftp" are deliberately absent. */
  const FacilityNames: map<string, int> := map[
    "kern" := LOG_KERN,
    "user" := LOG_USER,
    "mail" := LOG_MAIL,
    "daemon" := LOG_DAEMON,
    "auth" := LOG_AUTH,
    "syslog" := LOG_SYSLOG,
    "lpr" := LOG_LPR,
    "news" := LOG_NEWS,
    "uucp" := LOG_UUCP,
    "cron" := LOG_CRON,
    "local0" := LOG_LOCAL0,
    "local1" := LOG_LOCAL1,
    "local2" := LOG_LOCAL2,
    "local3" := LOG_LOCAL3,
    "local4" := LOG_LOCAL4,
    "local5" := LOG_LOCAL5,
    "local6" := LOG_LOCAL6,
    "local7" := LOG_LOCAL7
  ]

  /** One row of the level table: levels up to `level` map to `prio`. */
  datatype LevelMapping = LevelMapping(level: int, prio: int)

  /** Must be in ascending level order (see `Ascending`). */
  const PriorityMap: seq<LevelMapping> := [
    LevelMapping(LEVEL_DEBUG, LOG_DEBUG),
    LevelMapping(LEVEL_INFO, LOG_INFO),
    LevelMapping(LEVEL_WARNING, LOG_WARNING),
    LevelMapping(LEVEL_ERROR, LOG_ERR),
    LevelMapping(LEVEL_CRITICAL, LOG_CRIT)
  ]

  datatype Option<T> = None | Some(value: T)

  /** A facility or priority argument: an integer, a string, or anything else. */
  datatype Arg = IntArg(n: int) | StrArg(s: string) | OtherArg

  /** Which resolver raised: the two word their errors differently. */
  datatype Table = PriorityTable | FacilityTable

  /** The outcome of resolving an argument: an integer or the exception raised. */
  datatype Resolved = Int(value: int) | ValueError(table: Table, name: string) | TypeError(table: Table)

  /** The common shape of `Priority` and `Facility`, over the given name table. */
  function Resolve(names: map<string, int>, table: Table, a: Arg): Resolved
  {
    match a
    case IntArg(n) => Int(n)
    case StrArg(s) => if s in names then Int(names[s]) else ValueError(table, s)
    case OtherArg => TypeError(table)
  }

  /**
   * An integer passes through unchanged, with no range check; a known name
   * gives its severity; an unknown name raises ValueError; any other
   * argument raises TypeError.
   */
  function Priority(a: Arg): (r: Resolved)
    ensures a.IntArg? ==> r == Int(a.n)
    ensures a.StrArg? && a.s in PriorityNames ==> r == Int(PriorityNames[a.s]) && 0 <= r.value < 8
    ensures a.StrArg? && a.s !in PriorityNames ==> r == ValueError(PriorityTable, a.s)
    ensures a.OtherArg? ==> r == TypeError(PriorityTable)
  {
    Resolve(PriorityNames, PriorityTable, a)
  }

  /** As `Priority`, against the facility names. */
  function Facility(a: Arg): (r: Resolved)
    ensures a.IntArg? ==> r == Int(a.n)
    ensures a.StrArg? && a.s in FacilityNames ==> r == Int(FacilityNames[a.s]) && r.value % 8 == 0
    ensures a.StrArg? && a.s !in FacilityNames ==> r == ValueError(FacilityTable, a.s)
    ensures a.OtherArg? ==> r == TypeError(FacilityTable)
  {
    Resolve(FacilityNames, FacilityTable, a)
  }

  /**
   * Resolves the facility first, then the priority, and ORs them.  A
   * facility that does not resolve raises before the priority is looked at.
   */
  function EncodePriority(fac: Arg, pri: Arg): (r: Resolved)
    ensures !Facility(fac).Int? ==> r == Facility(fac)
    ensures Facility(fac).Int? && !Priority(pri).Int? ==> r == Priority(pri)
    ensures r.Int? <==> Facility(fac).Int? && Priority(pri).Int?
  {
    match Facility(fac)
    case Int(f) =>
      (match Priority(pri)
       case Int(p) => Int(BitOr(f, p))
       case err => err)
    case err => err
  }

  /** The facility half and the severity half of an encoded priority. */
  datatype Pri = Pri(facility: int, severity: int)

  /** Splits an encoded priority as a syslog reader does (RFC 5424, 6.2.1). */
  function DecodePri(r: int): (d: Pri)
    ensures d.facility % 8 == 0 && 0 <= d.severity < 8
    ensures d.facility + d.severity == r
  {
    Pri(r - r % 8, r % 8)
  }

  /**
   * Ceiling lookup: the priority of the first row whose level is at or
   * above `level`, or `default` when `level` is above every row.
   */
  function Ceiling(table: seq<LevelMapping>, level: int, default: int): (r: int)
    ensures r == default || exists i :: 0 <= i < |table| && r == table[i].prio
  {
    if table == [] then default
    else if level <= table[0].level then table[0].prio
    else
      var r := Ceiling(table[1..], level, default);
      assert r != default ==> exists i :: 0 <= i < |table[1..]| && r == table[1..][i].prio;
      assert forall i :: 0 <= i < |table[1..]| ==> table[1..][i] == table[i + 1];
      r
  }

  /** The severity the handler logs a record of the given level at. */
  function Severity(level: int): int
  {
    Ceiling(PriorityMap, level, LOG_CRIT)
  }

  /**
   * A table fit for a ceiling lookup: levels ascending and priorities
   * descending (more severe as the level rises), none less severe than the
   * default given for levels above the table.
   */
  predicate Ascending(table: seq<LevelMapping>, default: int)
  {
    && (forall i, j :: 0 <= i < j < |table| ==> table[i].level <= table[j].level && table[i].prio >= table[j].prio)
    && (forall i :: 0 <= i < |table| ==> table[i].prio >= default)
  }

  /** The logging framework's level of a record is mapped by a linear scan. */
  method MapPriority(level: int) returns (prio: int)
    ensures prio == Severity(level)
  {
    var i := 0;
    while i < |PriorityMap|
      invariant 0 <= i <= |PriorityMap|
      invariant Ceiling(PriorityMap[i..], level, LOG_CRIT) == Severity(level)
    {
      if level <= PriorityMap[i].level {
        return PriorityMap[i].prio;
      }
      assert PriorityMap[i..][1..] == PriorityMap[i + 1..];
      i := i + 1;
    }
    return LOG_CRIT;
  }

  /*
   * What the ceiling lookup computes, stated without recursion: the first
   * row at or above the level decides, and a level above every row gets
   * the default.
   */

  lemma {:induction false} CeilingFirstAtLeast(table: seq<LevelMapping>, level: int, default: int, i: int)
    requires 0 <= i < |table| && level <= table[i].level
    requires forall j :: 0 <= j < i ==> table[j].level < level
    ensures Ceiling(table, level, default) == table[i].prio
  {
    if i > 0 {
      CeilingFirstAtLeast(table[1..], level, default, i - 1);
    }
  }

  lemma {:induction false} CeilingAboveAll(table: seq<LevelMapping>, level: int, default: int)
    requires forall j :: 0 <= j < |table| ==> table[j].level < level
    ensures Ceiling(table, level, default) == default
  {
    if table != [] {
      CeilingAboveAll(table[1..], level, default);
    }
  }

  /** Over an ascending table, a higher level never yields a less severe priority. */
  lemma {:induction false} CeilingAntitone(table: seq<LevelMapping>, l1: int, l2: int, default: int)
    requires Ascending(table, default)
    requires l1 <= l2
    ensures Ceiling(table, l1, default) >= Ceiling(table, l2, default)
  {
    if table != [] && l1 > table[0].level {
      assert Ascending(table[1..], default) by {
        forall i, j | 0 <= i < j < |table[1..]|
          ensures table[1..][i].level <= table[1..][j].level && table[1..][i].prio >= table[1..][j].prio
        {
          assert table[1..][i] == table[i + 1] && table[1..][j] == table[j + 1];
        }
      }
      CeilingAntitone(table[1..], l1, l2, default);
    }
  }

  lemma PriorityMapAscending()
    ensures Ascending(PriorityMap, LOG_CRIT)
  {
  }

  /** A higher logging level never maps to a less severe syslog priority. */
  lemma SeverityAntitone(l1: int, l2: int)
    requires l1 <= l2
    ensures Severity(l1) >= Severity(l2)
  {
    PriorityMapAscending();
    CeilingAntitone(PriorityMap, l1, l2, LOG_CRIT);
  }

  /** Every level maps to a severity between CRIT and DEBUG. */
  lemma SeverityRange(level: int)
    ensures LOG_CRIT <= Severity(level) <= LOG_DEBUG
  {
    SeverityByInterval(level);
  }

  /** The ceiling lookup, interval by interval. */
  lemma SeverityByInterval(level: int)
    ensures level <= LEVEL_DEBUG ==> Severity(level) == LOG_DEBUG
    ensures LEVEL_DEBUG < level <= LEVEL_INFO ==> Severity(level) == LOG_INFO
    ensures LEVEL_INFO < level <= LEVEL_WARNING ==> Severity(level) == LOG_WARNING
    ensures LEVEL_WARNING < level <= LEVEL_ERROR ==> Severity(level) == LOG_ERR
    ensures LEVEL_ERROR < level <= LEVEL_CRITICAL ==> Severity(level) == LOG_CRIT
    ensures LEVEL_CRITICAL < level ==> Severity(level) == LOG_CRIT
  {
    if level <= LEVEL_DEBUG {
      CeilingFirstAtLeast(PriorityMap, level, LOG_CRIT, 0);
    } else if level <= LEVEL_INFO {
      CeilingFirstAtLeast(PriorityMap, level, LOG_CRIT, 1);
    } else if level <= LEVEL_WARNING {
      CeilingFirstAtLeast(PriorityMap, level, LOG_CRIT, 2);
    } else if level <= LEVEL_ERROR {
      CeilingFirstAtLeast(PriorityMap, level, LOG_CRIT, 3);
    } else if level <= LEVEL_CRITICAL {
      CeilingFirstAtLeast(PriorityMap, level, LOG_CRIT, 4);
    } else {
      CeilingAboveAll(PriorityMap, level, LOG_CRIT);
    }
  }

  /** Levels between two named ones round up; the named ones map exactly. */
  lemma SeverityExamples()
    ensures Severity(0) == LOG_DEBUG
    ensures Severity(LEVEL_DEBUG) == LOG_DEBUG
    ensures Severity(LEVEL_ERROR) == LOG_ERR
    ensures Severity(25) == LOG_WARNING
    ensures Severity(LEVEL_CRITICAL + 1) == LOG_CRIT
  {
    SeverityByInterval(0);
    SeverityByInterval(LEVEL_ERROR);
    SeverityByInterval(25);
    SeverityByInterval(LEVEL_CRITICAL + 1);
  }

  /*
   * The name tables.  `PriorityName` and `FacilityName` are a second,
   * independent statement of the two tables, read from value to name; they
   * exist so that the round-trip lemmas below can prove each table
   * injective and pin down exactly which values it contains.
   */

  /** The name of a severity constant, if it has one. */
  function PriorityName(v: int): (n: Option<string>)
    ensures n.Some? <==> 0 <= v < 8
  {
    if v == LOG_EMERG then Some("emerg")
    else if v == LOG_ALERT then Some("alert")
    else if v == LOG_CRIT then Some("crit")
    else if v == LOG_ERR then Some("err")
    else if v == LOG_WARNING then Some("warning")
    else if v == LOG_NOTICE then Some("notice")
    else if v == LOG_INFO then Some("info")
    else if v == LOG_DEBUG then Some("debug")
    else None
  }

  /** The name of a facility constant, if it has one. */
  function FacilityName(v: int): (n: Option<string>)
    ensures n.Some? ==> v % 8 == 0 && 0 <= v <= LOG_LOCAL7
  {
    if v == LOG_KERN then Some("kern")
    else if v == LOG_USER then Some("user")
    else if v == LOG_MAIL then Some("mail")
    else if v == LOG_DAEMON then Some("daemon")
    else if v == LOG_AUTH then Some("auth")
    else if v == LOG_SYSLOG then Some("syslog")
    else if v == LOG_LPR then Some("lpr")
    else if v == LOG_NEWS then Some("news")
    else if v == LOG_UUCP then Some("uucp")
    else if v == LOG_CRON then Some("cron")
    else if v == LOG_LOCAL0 then Some("local0")
    else if v == LOG_LOCAL1 then Some("local1")
    else if v == LOG_LOCAL2 then Some("local2")
    else if v == LOG_LOCAL3 then Some("local3")
    else if v == LOG_LOCAL4 then Some("local4")
    else if v == LOG_LOCAL5 then Some("local5")
    else if v == LOG_LOCAL6 then Some("local6")
    else if v == LOG_LOCAL7 then Some("local7")
    else None
  }

  /** Every priority name resolves to a constant that names it back, and vice versa. */
  lemma PriorityNamesRoundTrip(name: string, v: int)
    ensures Priority(StrArg(name)) == Int(v) <==> PriorityName(v) == Some(name)
  {
  }

  /** Every facility name resolves to a constant that names it back, and vice versa. */
  lemma FacilityNamesRoundTrip(name: string, v: int)
    ensures Facility(StrArg(name)) == Int(v) <==> FacilityName(v) == Some(name)
  {
  }

  /*
   * The encoding.
   */

  /**
   * When the facility is a multiple of 8 and the priority lies in 0..7
   * (every pair of table constants), the OR is the sum: the RFC 5424 PRI
   * value.
   */
  lemma EncodeDisjointIsSum(fac: Arg, pri: Arg)
    requires Facility(fac).Int? && Facility(fac).value % 8 == 0
    requires Priority(pri).Int? && 0 <= Priority(pri).value < 8
    ensures EncodePriority(fac, pri) == Int(Facility(fac).value + Priority(pri).value)
  {
    var f, p := Facility(fac).value, Priority(pri).value;
    assert Pow2(3) == 8;
    DisjointBitOrIsSum(f / 8, p, 3);
  }

  /** Integer arguments always resolve, so their encoding is their OR. */
  lemma EncodeIntegers(f: int, p: int)
    ensures EncodePriority(IntArg(f), IntArg(p)) == Int(BitOr(f, p))
  {
  }

  /** The encoding is bitwise: each bit of the result is set in the facility or the priority. */
  lemma EncodeBits(fac: Arg, pri: Arg, k: nat)
    requires EncodePriority(fac, pri).Int?
    ensures TestBit(EncodePriority(fac, pri).value, k) <==>
              TestBit(Facility(fac).value, k) || TestBit(Priority(pri).value, k)
  {
    BitOrBits(Facility(fac).value, Priority(pri).value, k);
  }

  /**
   * Two table names encode to the RFC 5424 PRI value, from which a reader
   * recovers exactly the facility and the severity that went in.
   */
  lemma EncodeNamesRoundTrip(facName: string, priName: string)
    requires facName in FacilityNames && priName in PriorityNames
    ensures EncodePriority(StrArg(facName), StrArg(priName)).Int?
    ensures DecodePri(EncodePriority(StrArg(facName), StrArg(priName)).value) ==
              Pri(FacilityNames[facName], PriorityNames[priName])
  {
    var fac, pri := Facility(StrArg(facName)), Priority(StrArg(priName));
    assert fac == Int(FacilityNames[facName]) && fac.value % 8 == 0;
    assert pri == Int(PriorityNames[priName]) && 0 <= pri.value < 8;
    EncodeDisjointIsSum(StrArg(facName), StrArg(priName));
    DecodeSum(fac.value, pri.value);
  }

  /** A multiple of 8 plus a severity decodes back into the two. */
  lemma DecodeSum(f: int, p: int)
    requires f % 8 == 0 && 0 <= p < 8
    ensures DecodePri(f + p) == Pri(f, p)
  {
  }

  /** For the table constants, OR and addition agree. */
  lemma TableConstantsDisjoint(facName: string, priName: string)
    requires facName in FacilityNames && priName in PriorityNames
    ensures BitOr(FacilityNames[facName], PriorityNames[priName]) ==
              FacilityNames[facName] + PriorityNames[priName]
  {
    var f, p := Facility(StrArg(facName)).value, Priority(StrArg(priName)).value;
    assert Pow2(3) == 8;
    DisjointBitOrIsSum(f / 8, p, 3);
  }

  lemma EncodeExample()
    ensures EncodePriority(StrArg("local3"), StrArg("warning")) == Int(LOG_LOCAL3 + LOG_WARNING)
    ensures EncodePriority(StrArg("nosuch"), StrArg("warning")) == ValueError(FacilityTable, "nosuch")
    ensures EncodePriority(StrArg("nosuch"), OtherArg) == ValueError(FacilityTable, "nosuch")
    ensures EncodePriority(IntArg(LOG_USER), StrArg("nosuch")) == ValueError(PriorityTable, "nosuch")
  {
  }

  /*
   * The handler and the syslog transport it writes to.
   */

  /** A call into the operating system's syslog client. */
  datatype Call = OpenLogCall(ident: Option<string>, options: int, facility: int) | SyslogCall(prio: int, msg: string)

  /**
   * The process-wide syslog connection.  It is shared by every handler:
   * a later `OpenLogCall` changes what earlier handlers write through.
   */
  class Transport {
    /** Every call made to the syslog client, in order. */
    ghost var calls: seq<Call>

    constructor ()
      ensures calls == []
    {
      calls := [];
    }

    method OpenLog(ident: Option<string>, options: int, facility: int)
      modifies this
      ensures calls == old(calls) + [OpenLogCall(ident, options, facility)]
    {
      calls := calls + [OpenLogCall(ident, options, facility)];
    }

    method Syslog(prio: int, msg: string)
      modifies this
      ensures calls == old(calls) + [SyslogCall(prio, msg)]
    {
      calls := calls + [SyslogCall(prio, msg)];
    }
  }

  /** Constructing a handler either yields one or raises the facility's error. */
  datatype Opened = Created(handler: SyslogHandler) | Failed(error: Resolved)

  class SyslogHandler {
    /** The resolved facility, fixed at construction. */
    const facility: int
    const transport: Transport

    /**
     * Only the allocation step of `Open`, which is what models Python's
     * `__init__`: a handler made here alone has not opened the transport.
     */
    constructor (facility: int, transport: Transport)
      ensures this.facility == facility && this.transport == transport
    {
      this.facility := facility;
      this.transport := transport;
    }

    /**
     * Resolves the facility, then opens the transport with it.  A facility
     * that does not resolve raises before the transport is touched.
     */
    static method Open(transport: Transport, ident: Option<string> := None, facility: Arg := IntArg(LOG_USER), options: int := 0)
      returns (result: Opened)
      modifies transport
      ensures Facility(facility).Int? ==>
                && result.Created? && fresh(result.handler)
                && result.handler.facility == Facility(facility).value
                && result.handler.transport == transport
                && transport.calls == old(transport.calls) + [OpenLogCall(ident, options, Facility(facility).value)]
      ensures !Facility(facility).Int? ==>
                result == Failed(Facility(facility)) && transport.calls == old(transport.calls)
    {
      var resolved := Facility(facility);
      if !resolved.Int? {
        return Failed(resolved);
      }
      var handler := new SyslogHandler(resolved.value, transport);
      transport.OpenLog(ident, options, resolved.value);
      return Created(handler);
    }

    /**
     * Sends an already formatted record of the given level, encoded with
     * the handler's facility and the level's severity.
     */
    method Emit(level: int, msg: string)
      modifies transport
      ensures transport.calls == old(transport.calls) + [SyslogCall(BitOr(facility, Severity(level)), msg)]
      ensures facility % 8 == 0 ==>
                DecodePri(BitOr(facility, Severity(level))) == Pri(facility, Severity(level))
    {
      var severity := MapPriority(level);
      var prio := EncodePriority(IntArg(facility), IntArg(severity));
      EncodeIntegers(facility, severity);
      SeverityRange(level);
      if facility % 8 == 0 {
        EncodeDisjointIsSum(IntArg(facility), IntArg(severity));
        DecodeSum(facility, severity);
      }
      transport.Syslog(prio.value, msg);
    }
  }
}
