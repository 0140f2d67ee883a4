/**
 * The backend's exceptions, as the error side of a `Result`. Each carries the
 * message the service puts in it.
 */
module Errors {

  datatype ServiceError =
    | ResourceNotFound(message: string)   // ResourceNotFoundException
    | Validation(message: string)         // ValidationException
    | Unauthorized(message: string)       // UnauthorizedException
    | EmailValidation(message: string)    // EmailValidationException
    | InvalidPassword(message: string)    // InvalidPasswordException
    | UsernameNotFound(message: string)   // Spring's UsernameNotFoundException
    | ConstraintViolation                 // the database refused a save (a null or duplicate column)
    | NullDereference                     // a NullPointerException
    | NullId                              // Spring Data's refusal of a null id (IllegalArgumentException)
}
