/** The PHP-side values that the API handler and the element module pass around:
    request conditions, error messages, the records the persistence layer hands
    back, and the results a domain module returns. */
module Values {

  datatype Option<+T> = None | Some(value: T)

  /** A request's parameters. Every value reaching the handler from a request is a string. */
  type Condition = map<string, string>

  /** Laravel's `array_get` for a key without dots: the stored value, or the default when absent. */
  function ArrayGet(c: Condition, key: string, default: string): string
  {
    if key in c then c[key] else default
  }

  /** The discriminator of a request, `array_get($condition, 'by', '')`. */
  function By(c: Condition): string
  {
    ArrayGet(c, "by", "")
  }

  /** `Library\ErrorMessage\ErrorMessage`: an error value carrying a catalogue code. */
  datatype ErrorMessage = ErrorMessage(code: string)

  /** Code 2003: the handler does not recognise the request's discriminator. */
  const UnknownRequest: ErrorMessage := ErrorMessage("2003")

  /** An image record owned by an element or a theme. */
  datatype Image = Image(url: string)

  /** An element model as the handler reads it. */
  datatype ElementRec = ElementRec(
    uniqueId: string,
    heroId: Option<int>,
    url: string,
    title: string,
    image: Option<Image>,
    playNum: int,
    raiseNum: int,
    duration: int)

  /** A hero model; `imageSrc` is what its `getImageSrc()` accessor returns. */
  datatype HeroRec = HeroRec(id: int, name: string, imageSrc: string)

  /** A hero type model with its `hero` relation, in order. */
  datatype HeroTypeRec = HeroTypeRec(name: string, hero: seq<HeroRec>)

  /** A theme model with its optional image and its `element` relation, in order. */
  datatype ThemeRec = ThemeRec(id: int, name: string, image: Option<Image>, element: seq<ElementRec>)

  /** A PHP value: a scalar, an associative array (a DTO), a list array, or a model instance. */
  datatype Value =
    | Nil
    | Text(s: string)
    | Num(n: int)
    | Assoc(fields: map<string, Value>)
    | List(items: seq<Value>)
    | ElementModel(element: ElementRec)
    | HeroModel(hero: HeroRec)
    | HeroTypeModel(heroType: HeroTypeRec)
    | ThemeModel(theme: ThemeRec)

  /** What a domain module or a persistence query returns. */
  datatype ModResult =
    | Err(error: ErrorMessage)   // an ErrorMessage instance
    | Coll(items: seq<Value>)    // a Laravel Collection
    | One(value: Value)          // a single model instance or array
    | EmptyArr                   // the literal `[]`
    | Null                       // `null`, what a PHP function returns when it falls off its end

  /** `ErrorMessage::isError`. */
  predicate IsError(m: ModResult)
  {
    m.Err?
  }

  /** PHP's truthiness of a single value: an empty array is false, a model is always true. */
  predicate ValueTruthy(v: Value)
  {
    match v
    case Nil => false
    case Text(s) => s != "" && s != "0"
    case Num(n) => n != 0
    case Assoc(f) => f != map[]
    case List(items) => items != []
    case _ => true
  }

  /** PHP's truthiness of a module result, as `if ($response)` tests it. */
  predicate Truthy(m: ModResult)
  {
    match m
    case Err(_) => true
    case Coll(_) => true
    case One(v) => ValueTruthy(v)
    case EmptyArr => false
    case Null => false
  }
}
