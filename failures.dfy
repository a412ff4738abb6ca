/** Option and Result over the one failure type of the subsystem model.
    Every exception the handlers can raise becomes a Failure value. */
module Failures {

  datatype Option<+T> = None | Some(value: T)

  /** What went wrong; each variant names the source's own failure. */
  datatype Failure =
    /** ParseUtils.unexpectedAttribute: an attribute the element does not accept */
    | UnexpectedAttribute(element: string, attribute: string)
    /** ParseUtils.unexpectedElement: a child element the element does not accept */
    | UnexpectedElement(element: string)
    /** ParseUtils.missingRequired: one of the listed attributes is absent */
    | MissingRequired(element: string, attributes: seq<string>)
    /** ParseUtils.invalidAttributeValue: not a constant of the attribute's enumeration */
    | InvalidAttributeValue(element: string, attribute: string, value: string)
    /** NumberFormatException from Integer.parseInt or Long.parseLong */
    | NumberFormat(value: string)
    /** XMLStreamException from getElementText on an element that has child elements */
    | TextOnlyExpected(element: string)
    /** XMLStreamException from nextTag: text other than white space where a child element or the end tag belongs */
    | UnexpectedText(element: string)
    /** ModelNode.require on an undefined key */
    | RequiredUndefined(key: string)
    /** a ModelNode conversion (asString, asInt, asList, ...) on a value of another type */
    | NotConvertible(key: string)
    /** Enum.valueOf on a string that names no constant */
    | UnknownConstant(key: string, value: string)
    /** the index exceptions the store-property decoder raises on text it cannot cut up */
    | MalformedProperties(text: string)
    /** InfinispanMessages.invalidCacheStore: the store class could not be instantiated */
    | InvalidCacheStore(className: string)

  datatype Result<+T> = Ok(value: T) | Err(error: Failure) {
    predicate IsFailure() { Err? }
    function PropagateFailure<U>(): Result<U>
      requires Err?
    {
      Err(error)
    }
    function Extract(): T
      requires Ok?
    {
      value
    }
  }
}
