/** `BaseLogger` and its subclass `MyLogger`, whose `getMessage` override
    decorates the message, and object slicing: a `MyLogger` passed by value as a
    `BaseLogger` is copied into a plain base object and loses the decoration,
    while one passed by reference keeps its dynamic type. */
module ObjectSlicing {

  datatype Option<T> = None | Some(value: T)

  /** `BaseLogger`'s default message. */
  const DEFAULT_MESSAGE: string := "BASE LOGGER INITIALIZED"

  /** What `MyLogger::getMessage` puts before the message. */
  const DECORATION_PREFIX: string := "Decorated Log Message: " + "("

  /** `MyLogger::getMessage` applied to the message `m`: the decoration always
      changes the message and can be undone. */
  function Decorate(m: string): (d: string)
    ensures d != m
    ensures Undecorate(d) == Some(m)
  {
    DECORATION_PREFIX + m + ")"
  }

  /** Recovers the message from a decorated one; `None` for text that no message
      decorates to. */
  function Undecorate(d: string): Option<string> {
    if |d| >= |DECORATION_PREFIX| + 1 && d[..|DECORATION_PREFIX|] == DECORATION_PREFIX && d[|d| - 1] == ')'
    then Some(d[|DECORATION_PREFIX|..|d| - 1])
    else None
  }

  /** Whatever undecorates to `m` is the decoration of `m`. */
  lemma DecorateUndecorate(d: string, m: string)
    requires Undecorate(d) == Some(m)
    ensures Decorate(m) == d
  {
  }

  /** The dynamic type of a logger object. */
  datatype LoggerClass = BaseLogger | MyLogger

  class Logger {
    /** the class the object was constructed as */
    const dynamicType: LoggerClass
    /** `m_msg` */
    var msg: string

    /** `BaseLogger(std::string t_msg = "BASE LOGGER INITIALIZED")` */
    constructor Base(t: string := DEFAULT_MESSAGE)
      ensures dynamicType == BaseLogger && msg == t
    {
      dynamicType, msg := BaseLogger, t;
    }

    /** `MyLogger(std::string t_msg)`, which passes the message to the base. */
    constructor My(t: string)
      ensures dynamicType == MyLogger && msg == t
    {
      dynamicType, msg := MyLogger, t;
    }

    /** The implicit `BaseLogger` copy constructor applied to any logger: only the
        base part, `m_msg`, is copied, and the copy is a plain `BaseLogger`. */
    constructor SlicedCopy(source: Logger)
      ensures dynamicType == BaseLogger && msg == source.msg
    {
      dynamicType, msg := BaseLogger, source.msg;
    }

    /** The virtual `getMessage`, dispatched on the dynamic type: the message
        comes back bare exactly for a base logger, and decorated for a `MyLogger`. */
    function GetMessage(): (m: string)
      reads this
      ensures m == msg <==> dynamicType == BaseLogger
      ensures dynamicType == MyLogger ==> Undecorate(m) == Some(msg)
    {
      match dynamicType
      case BaseLogger => msg
      case MyLogger => Decorate(msg)
    }

    /** `setMessage`: replaces the message; a base logger then reports it as is. */
    method SetMessage(t: string)
      modifies this
      ensures msg == t
      ensures dynamicType == BaseLogger ==> GetMessage() == t
      ensures dynamicType == MyLogger ==> GetMessage() == Decorate(t)
    {
      msg := t;
    }
  }

  /** The message `writeLogByVal` writes: its parameter is a `BaseLogger` copied
      from the argument, so only the undecorated message is seen. */
  method WriteLogByVal(logger: Logger) returns (written: string)
    ensures written == logger.msg
    ensures logger.dynamicType == MyLogger ==> written != logger.GetMessage()
  {
    var copy := new Logger.SlicedCopy(logger);
    written := copy.GetMessage();
  }

  /** The message `writeLogByRef` writes: the argument itself, so the override of
      its dynamic type decides. */
  method WriteLogByRef(logger: Logger) returns (written: string)
    ensures written == logger.GetMessage()
    ensures logger.dynamicType == MyLogger ==> Undecorate(written) == Some(logger.msg)
    ensures logger.dynamicType == BaseLogger ==> written == logger.msg
  {
    written := logger.GetMessage();
  }

  /** The sample's `main`: the messages of a default base logger and of
      `MyLogger("Preparing Logger")`, then what the by-value and by-reference
      writers log for the latter. */
  method MainScenario() returns (baseMessage: string, myMessage: string, byVal: string, byRef: string)
    ensures baseMessage == "BASE LOGGER INITIALIZED"
    ensures myMessage == Decorate("Preparing Logger")
    ensures byVal == "Preparing Logger" && byRef == myMessage
  {
    var baseLogger := new Logger.Base();
    baseMessage := baseLogger.GetMessage();
    var myLogger := new Logger.My("Preparing Logger");
    myMessage := myLogger.GetMessage();
    byVal := WriteLogByVal(myLogger);
    byRef := WriteLogByRef(myLogger);
  }
}
