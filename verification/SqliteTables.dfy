/** The parsing tables that parse.c ships (lines 400-971, 1125-1459 and 1897-2233), as functions on
    indices.  Each is a decision tree; the big ones are split into numbered pieces. */
module SqliteTables {
  function Action0(i: int): int {
    if i < 15 then
     if i < 7 then
      if i < 3 then
       if i < 1 then 329 else if i < 2 then 836 else 355
      else
       if i < 5 then if i < 4 then 829 else 5 else if i < 6 then 203 else 203
     else
      if i < 11 then
       if i < 9 then if i < 8 then 823 else 99 else if i < 10 then 100 else 90
      else
       if i < 13 then if i < 12 then 846 else 846 else if i < 14 then 858 else 861
    else
     if i < 22 then
      if i < 18 then
       if i < 16 then 850 else if i < 17 then 850 else 97
      else
       if i < 20 then if i < 19 then 97 else 98 else if i < 21 then 98 else 98
     else
      if i < 26 then
       if i < 24 then if i < 23 then 98 else 305 else if i < 25 then 96 else 96
      else
       if i < 28 then if i < 27 then 96 else 96 else if i < 29 then 95 else 95
  }

  function Action1(i: int): int {
    if i < 45 then
     if i < 37 then
      if i < 33 then
       if i < 31 then 94 else if i < 32 then 94 else 94
      else
       if i < 35 then if i < 34 then 93 else 355 else if i < 36 then 329 else 981
     else
      if i < 41 then
       if i < 39 then if i < 38 then 981 else 828 else if i < 40 then 828 else 830
      else
       if i < 43 then if i < 42 then 951 else 358 else if i < 44 then 99 else 100
    else
     if i < 52 then
      if i < 48 then
       if i < 46 then 90 else if i < 47 then 846 else 846
      else
       if i < 50 then if i < 49 then 858 else 861 else if i < 51 then 850 else 850
     else
      if i < 56 then
       if i < 54 then if i < 53 then 97 else 97 else if i < 55 then 98 else 98
      else
       if i < 58 then if i < 57 then 98 else 98 else if i < 59 then 342 else 96
  }

  function Action2(i: int): int {
    if i < 75 then
     if i < 67 then
      if i < 63 then
       if i < 61 then 96 else if i < 62 then 96 else 96
      else
       if i < 65 then if i < 64 then 95 else 95 else if i < 66 then 94 else 94
     else
      if i < 71 then
       if i < 69 then if i < 68 then 94 else 93 else if i < 70 then 355 else 95
      else
       if i < 73 then if i < 72 then 95 else 94 else if i < 74 then 94 else 94
    else
     if i < 82 then
      if i < 78 then
       if i < 76 then 93 else if i < 77 then 355 else 795
      else
       if i < 80 then if i < 79 then 981 else 981 else if i < 81 then 329 else 94
     else
      if i < 86 then
       if i < 84 then if i < 83 then 94 else 94 else if i < 85 then 93 else 355
      else
       if i < 88 then if i < 87 then 796 else 75 else if i < 89 then 99 else 100
  }

  function Action3(i: int): int {
    if i < 105 then
     if i < 97 then
      if i < 93 then
       if i < 91 then 90 else if i < 92 then 846 else 846
      else
       if i < 95 then if i < 94 then 858 else 861 else if i < 96 then 850 else 850
     else
      if i < 101 then
       if i < 99 then if i < 98 then 97 else 97 else if i < 100 then 98 else 98
      else
       if i < 103 then if i < 102 then 98 else 98 else if i < 104 then 454 else 96
    else
     if i < 112 then
      if i < 108 then
       if i < 106 then 96 else if i < 107 then 96 else 96
      else
       if i < 110 then if i < 109 then 95 else 95 else if i < 111 then 94 else 94
     else
      if i < 116 then
       if i < 114 then if i < 113 then 94 else 93 else if i < 115 then 355 else 1337
      else
       if i < 118 then if i < 117 then 155 else 155 else if i < 119 then 2 else 329
  }

  function Action4(i: int): int {
    if i < 135 then
     if i < 127 then
      if i < 123 then
       if i < 121 then 279 else if i < 122 then 146 else 132
      else
       if i < 125 then if i < 124 then 52 else 52 else if i < 126 then 93 else 355
     else
      if i < 131 then
       if i < 129 then if i < 128 then 99 else 100 else if i < 130 then 90 else 846
      else
       if i < 133 then if i < 132 then 846 else 858 else if i < 134 then 861 else 850
    else
     if i < 142 then
      if i < 138 then
       if i < 136 then 850 else if i < 137 then 97 else 97
      else
       if i < 140 then if i < 139 then 98 else 98 else if i < 141 then 98 else 98
     else
      if i < 146 then
       if i < 144 then if i < 143 then 101 else 96 else if i < 145 then 96 else 96
      else
       if i < 148 then if i < 147 then 96 else 95 else if i < 149 then 95 else 94
  }

  function Action5(i: int): int {
    if i < 165 then
     if i < 157 then
      if i < 153 then
       if i < 151 then 94 else if i < 152 then 94 else 93
      else
       if i < 155 then if i < 154 then 355 else 962 else if i < 156 then 962 else 329
     else
      if i < 161 then
       if i < 159 then if i < 158 then 272 else 432 else if i < 160 then 417 else 415
      else
       if i < 163 then if i < 162 then 61 else 756 else if i < 164 then 756 else 99
    else
     if i < 172 then
      if i < 168 then
       if i < 166 then 100 else if i < 167 then 90 else 846
      else
       if i < 170 then if i < 169 then 846 else 858 else if i < 171 then 861 else 850
     else
      if i < 176 then
       if i < 174 then if i < 173 then 850 else 97 else if i < 175 then 97 else 98
      else
       if i < 178 then if i < 177 then 98 else 98 else if i < 179 then 98 else 60
  }

  function Action6(i: int): int {
    if i < 195 then
     if i < 187 then
      if i < 183 then
       if i < 181 then 96 else if i < 182 then 96 else 96
      else
       if i < 185 then if i < 184 then 96 else 95 else if i < 186 then 95 else 94
     else
      if i < 191 then
       if i < 189 then if i < 188 then 94 else 94 else if i < 190 then 93 else 355
      else
       if i < 193 then if i < 192 then 329 else 274 else if i < 194 then 333 else 277
    else
     if i < 202 then
      if i < 198 then
       if i < 196 then 281 else if i < 197 then 963 else 964
      else
       if i < 200 then if i < 199 then 250 else 99 else if i < 201 then 100 else 90
     else
      if i < 206 then
       if i < 204 then if i < 203 then 846 else 846 else if i < 205 then 858 else 861
      else
       if i < 208 then if i < 207 then 850 else 850 else if i < 209 then 97 else 97
  }

  function Action7(i: int): int {
    if i < 225 then
     if i < 217 then
      if i < 213 then
       if i < 211 then 98 else if i < 212 then 98 else 98
      else
       if i < 215 then if i < 214 then 98 else 305 else if i < 216 then 96 else 96
     else
      if i < 221 then
       if i < 219 then if i < 218 then 96 else 96 else if i < 220 then 95 else 95
      else
       if i < 223 then if i < 222 then 94 else 94 else if i < 224 then 94 else 93
    else
     if i < 232 then
      if i < 228 then
       if i < 226 then 355 else if i < 227 then 329 else 942
      else
       if i < 230 then if i < 229 then 1330 else 702 else if i < 231 then 710 else 1330
     else
      if i < 236 then
       if i < 234 then if i < 233 then 242 else 416 else if i < 235 then 99 else 100
      else
       if i < 238 then if i < 237 then 90 else 846 else if i < 239 then 846 else 858
  }

  function Action8(i: int): int {
    if i < 255 then
     if i < 247 then
      if i < 243 then
       if i < 241 then 861 else if i < 242 then 850 else 850
      else
       if i < 245 then if i < 244 then 97 else 97 else if i < 246 then 98 else 98
     else
      if i < 251 then
       if i < 249 then if i < 248 then 98 else 98 else if i < 250 then 351 else 96
      else
       if i < 253 then if i < 252 then 96 else 96 else if i < 254 then 96 else 95
    else
     if i < 262 then
      if i < 258 then
       if i < 256 then 95 else if i < 257 then 94 else 94
      else
       if i < 260 then if i < 259 then 94 else 93 else if i < 261 then 355 else 329
     else
      if i < 266 then
       if i < 264 then if i < 263 then 942 else 1331 else if i < 265 then 388 else 703
      else
       if i < 268 then if i < 267 then 1331 else 385 else if i < 269 then 383 else 99
  }

  function Action9(i: int): int {
    if i < 285 then
     if i < 277 then
      if i < 273 then
       if i < 271 then 100 else if i < 272 then 90 else 846
      else
       if i < 275 then if i < 274 then 846 else 858 else if i < 276 then 861 else 850
     else
      if i < 281 then
       if i < 279 then if i < 278 then 850 else 97 else if i < 280 then 97 else 98
      else
       if i < 283 then if i < 282 then 98 else 98 else if i < 284 then 98 else 705
    else
     if i < 292 then
      if i < 288 then
       if i < 286 then 96 else if i < 287 then 96 else 96
      else
       if i < 290 then if i < 289 then 96 else 95 else if i < 291 then 95 else 94
     else
      if i < 296 then
       if i < 294 then if i < 293 then 94 else 94 else if i < 295 then 93 else 355
      else
       if i < 298 then if i < 297 then 329 else 92 else if i < 299 then 89 else 178
  }

  function Action10(i: int): int {
    if i < 315 then
     if i < 307 then
      if i < 303 then
       if i < 301 then 837 else if i < 302 then 940 else 377
      else
       if i < 305 then if i < 304 then 704 else 99 else if i < 306 then 100 else 90
     else
      if i < 311 then
       if i < 309 then if i < 308 then 846 else 846 else if i < 310 then 858 else 861
      else
       if i < 313 then if i < 312 then 850 else 850 else if i < 314 then 97 else 97
    else
     if i < 322 then
      if i < 318 then
       if i < 316 then 98 else if i < 317 then 98 else 98
      else
       if i < 320 then if i < 319 then 98 else 379 else if i < 321 then 96 else 96
     else
      if i < 326 then
       if i < 324 then if i < 323 then 96 else 96 else if i < 325 then 95 else 95
      else
       if i < 328 then if i < 327 then 94 else 94 else if i < 329 then 94 else 93
  }

  function Action11(i: int): int {
    if i < 345 then
     if i < 337 then
      if i < 333 then
       if i < 331 then 355 else if i < 332 then 329 else 1280
      else
       if i < 335 then if i < 334 then 951 else 358 else if i < 336 then 822 else 940
     else
      if i < 341 then
       if i < 339 then if i < 338 then 743 else 743 else if i < 340 then 99 else 100
      else
       if i < 343 then if i < 342 then 90 else 846 else if i < 344 then 846 else 858
    else
     if i < 352 then
      if i < 348 then
       if i < 346 then 861 else if i < 347 then 850 else 850
      else
       if i < 350 then if i < 349 then 97 else 97 else if i < 351 then 98 else 98
     else
      if i < 356 then
       if i < 354 then if i < 353 then 98 else 98 else if i < 355 then 230 else 96
      else
       if i < 358 then if i < 357 then 96 else 96 else if i < 359 then 96 else 95
  }

  function Action12(i: int): int {
    if i < 375 then
     if i < 367 then
      if i < 363 then
       if i < 361 then 95 else if i < 362 then 94 else 94
      else
       if i < 365 then if i < 364 then 94 else 93 else if i < 366 then 355 else 329
     else
      if i < 371 then
       if i < 369 then if i < 368 then 973 else 227 else if i < 370 then 92 else 89
      else
       if i < 373 then if i < 372 then 178 else 377 else if i < 374 then 304 else 99
    else
     if i < 382 then
      if i < 378 then
       if i < 376 then 100 else if i < 377 then 90 else 846
      else
       if i < 380 then if i < 379 then 846 else 858 else if i < 381 then 861 else 850
     else
      if i < 386 then
       if i < 384 then if i < 383 then 850 else 97 else if i < 385 then 97 else 98
      else
       if i < 388 then if i < 387 then 98 else 98 else if i < 389 then 98 else 925
  }

  function Action13(i: int): int {
    if i < 405 then
     if i < 397 then
      if i < 393 then
       if i < 391 then 96 else if i < 392 then 96 else 96
      else
       if i < 395 then if i < 394 then 96 else 95 else if i < 396 then 95 else 94
     else
      if i < 401 then
       if i < 399 then if i < 398 then 94 else 94 else if i < 400 then 93 else 355
      else
       if i < 403 then if i < 402 then 329 else 453 else if i < 404 then 451 else 451
    else
     if i < 412 then
      if i < 408 then
       if i < 406 then 451 else if i < 407 then 147 else 741
      else
       if i < 410 then if i < 409 then 741 else 99 else if i < 411 then 100 else 90
     else
      if i < 416 then
       if i < 414 then if i < 413 then 846 else 846 else if i < 415 then 858 else 861
      else
       if i < 418 then if i < 417 then 850 else 850 else if i < 419 then 97 else 97
  }

  function Action14(i: int): int {
    if i < 435 then
     if i < 427 then
      if i < 423 then
       if i < 421 then 98 else if i < 422 then 98 else 98
      else
       if i < 425 then if i < 424 then 98 else 300 else if i < 426 then 96 else 96
     else
      if i < 431 then
       if i < 429 then if i < 428 then 96 else 96 else if i < 430 then 95 else 95
      else
       if i < 433 then if i < 432 then 94 else 94 else if i < 434 then 94 else 93
    else
     if i < 442 then
      if i < 438 then
       if i < 436 then 355 else if i < 437 then 329 else 423
      else
       if i < 440 then if i < 439 then 231 else 962 else if i < 441 then 962 else 158
     else
      if i < 446 then
       if i < 444 then if i < 443 then 25 else 426 else if i < 445 then 99 else 100
      else
       if i < 448 then if i < 447 then 90 else 846 else if i < 449 then 846 else 858
  }

  function Action15(i: int): int {
    if i < 465 then
     if i < 457 then
      if i < 453 then
       if i < 451 then 861 else if i < 452 then 850 else 850
      else
       if i < 455 then if i < 454 then 97 else 97 else if i < 456 then 98 else 98
     else
      if i < 461 then
       if i < 459 then if i < 458 then 98 else 98 else if i < 460 then 454 else 96
      else
       if i < 463 then if i < 462 then 96 else 96 else if i < 464 then 96 else 95
    else
     if i < 472 then
      if i < 468 then
       if i < 466 then 95 else if i < 467 then 94 else 94
      else
       if i < 470 then if i < 469 then 94 else 93 else if i < 471 then 355 else 447
     else
      if i < 476 then
       if i < 474 then if i < 473 then 224 else 224 else if i < 475 then 424 else 962
      else
       if i < 478 then if i < 477 then 962 else 966 else if i < 479 then 329 else 52
  }

  function Action16(i: int): int {
    if i < 495 then
     if i < 487 then
      if i < 483 then
       if i < 481 then 52 else if i < 482 then 963 else 964
      else
       if i < 485 then if i < 484 then 176 else 419 else if i < 486 then 78 else 99
     else
      if i < 491 then
       if i < 489 then if i < 488 then 100 else 90 else if i < 490 then 846 else 846
      else
       if i < 493 then if i < 492 then 858 else 861 else if i < 494 then 850 else 850
    else
     if i < 502 then
      if i < 498 then
       if i < 496 then 97 else if i < 497 then 97 else 98
      else
       if i < 500 then if i < 499 then 98 else 98 else if i < 501 then 98 else 383
     else
      if i < 506 then
       if i < 504 then if i < 503 then 96 else 96 else if i < 505 then 96 else 96
      else
       if i < 508 then if i < 507 then 95 else 95 else if i < 509 then 94 else 94
  }

  function Action17(i: int): int {
    if i < 525 then
     if i < 517 then
      if i < 513 then
       if i < 511 then 94 else if i < 512 then 93 else 355
      else
       if i < 515 then if i < 514 then 329 else 432 else if i < 516 then 422 else 302
     else
      if i < 521 then
       if i < 519 then if i < 518 then 963 else 964 else if i < 520 then 966 else 81
      else
       if i < 523 then if i < 522 then 99 else 88 else if i < 524 then 90 else 846
    else
     if i < 532 then
      if i < 528 then
       if i < 526 then 846 else if i < 527 then 858 else 861
      else
       if i < 530 then if i < 529 then 850 else 850 else if i < 531 then 97 else 97
     else
      if i < 536 then
       if i < 534 then if i < 533 then 98 else 98 else if i < 535 then 98 else 98
      else
       if i < 538 then if i < 537 then 721 else 96 else if i < 539 then 96 else 96
  }

  function Action18(i: int): int {
    if i < 555 then
     if i < 547 then
      if i < 543 then
       if i < 541 then 96 else if i < 542 then 95 else 95
      else
       if i < 545 then if i < 544 then 94 else 94 else if i < 546 then 94 else 93
     else
      if i < 551 then
       if i < 549 then if i < 548 then 355 else 329 else if i < 550 then 847 else 847
      else
       if i < 553 then if i < 552 then 859 else 862 else if i < 554 then 1000 else 322
    else
     if i < 562 then
      if i < 558 then
       if i < 556 then 347 else if i < 557 then 383 else 100
      else
       if i < 560 then if i < 559 then 90 else 846 else if i < 561 then 846 else 858
     else
      if i < 566 then
       if i < 564 then if i < 563 then 861 else 850 else if i < 565 then 850 else 97
      else
       if i < 568 then if i < 567 then 97 else 98 else if i < 569 then 98 else 98
  }

  function Action19(i: int): int {
    if i < 585 then
     if i < 577 then
      if i < 573 then
       if i < 571 then 98 else if i < 572 then 454 else 96
      else
       if i < 575 then if i < 574 then 96 else 96 else if i < 576 then 96 else 95
     else
      if i < 581 then
       if i < 579 then if i < 578 then 95 else 94 else if i < 580 then 94 else 94
      else
       if i < 583 then if i < 582 then 93 else 355 else if i < 584 then 329 else 354
    else
     if i < 592 then
      if i < 588 then
       if i < 586 then 354 else if i < 587 then 354 else 264
      else
       if i < 590 then if i < 589 then 381 else 344 else if i < 591 then 933 else 52
     else
      if i < 596 then
       if i < 594 then if i < 593 then 52 else 90 else if i < 595 then 846 else 846
      else
       if i < 598 then if i < 597 then 858 else 861 else if i < 599 then 850 else 850
  }

  function Action20(i: int): int {
    if i < 615 then
     if i < 607 then
      if i < 603 then
       if i < 601 then 97 else if i < 602 then 97 else 98
      else
       if i < 605 then if i < 604 then 98 else 98 else if i < 606 then 98 else 365
     else
      if i < 611 then
       if i < 609 then if i < 608 then 96 else 96 else if i < 610 then 96 else 96
      else
       if i < 613 then if i < 612 then 95 else 95 else if i < 614 then 94 else 94
    else
     if i < 622 then
      if i < 618 then
       if i < 616 then 94 else if i < 617 then 93 else 355
      else
       if i < 620 then if i < 619 then 86 else 449 else if i < 621 then 851 else 3
     else
      if i < 626 then
       if i < 624 then if i < 623 then 1207 else 365 else if i < 625 then 364 else 382
      else
       if i < 628 then if i < 627 then 348 else 817 else if i < 629 then 962 else 962
  }

  function Action21(i: int): int {
    if i < 645 then
     if i < 637 then
      if i < 633 then
       if i < 631 then 1304 else if i < 632 then 86 else 449
      else
       if i < 635 then if i < 634 then 733 else 3 else if i < 636 then 212 else 169
     else
      if i < 641 then
       if i < 639 then if i < 638 then 291 else 409 else if i < 640 then 286 else 408
      else
       if i < 643 then if i < 642 then 199 else 232 else if i < 644 then 454 else 304
    else
     if i < 652 then
      if i < 648 then
       if i < 646 then 764 else if i < 647 then 83 else 84
      else
       if i < 650 then if i < 649 then 284 else 245 else if i < 651 then 266 else 369
     else
      if i < 656 then
       if i < 654 then if i < 653 then 253 else 85 else if i < 655 then 356 else 356
      else
       if i < 658 then if i < 657 then 92 else 89 else if i < 659 then 178 else 83
  }

  function Action22(i: int): int {
    if i < 675 then
     if i < 667 then
      if i < 663 then
       if i < 661 then 84 else if i < 662 then 242 else 416
      else
       if i < 665 then if i < 664 then 52 else 52 else if i < 666 then 452 else 85
     else
      if i < 671 then
       if i < 669 then if i < 668 then 356 else 356 else if i < 670 then 246 else 963
      else
       if i < 673 then if i < 672 then 964 else 194 else if i < 674 then 459 else 674
    else
     if i < 682 then
      if i < 678 then
       if i < 676 then 406 else if i < 677 then 403 else 402
      else
       if i < 680 then if i < 679 then 452 else 243 else if i < 681 then 221 else 114
     else
      if i < 686 then
       if i < 684 then if i < 683 then 438 else 780 else if i < 685 then 365 else 454
      else
       if i < 688 then if i < 687 then 401 else 272 else if i < 689 then 751 else 224
  }

  function Action23(i: int): int {
    if i < 705 then
     if i < 697 then
      if i < 693 then
       if i < 691 then 224 else if i < 692 then 132 else 132
      else
       if i < 695 then if i < 694 then 198 else 836 else if i < 696 then 438 else 456
     else
      if i < 701 then
       if i < 699 then if i < 698 then 455 else 432 else if i < 700 then 431 else 823
      else
       if i < 703 then if i < 702 then 419 else 738 else if i < 704 then 717 else 132
    else
     if i < 712 then
      if i < 708 then
       if i < 706 then 52 else if i < 707 then 52 else 836
      else
       if i < 710 then if i < 709 then 272 else 456 else if i < 711 then 455 else 738
     else
      if i < 716 then
       if i < 714 then if i < 713 then 194 else 823 else if i < 715 then 367 else 406
      else
       if i < 718 then if i < 717 then 403 else 402 else if i < 719 then 454 else 1275
  }

  function Action24(i: int): int {
    if i < 735 then
     if i < 727 then
      if i < 723 then
       if i < 721 then 1275 else if i < 722 then 23 else 962
      else
       if i < 725 then if i < 724 then 962 else 86 else if i < 726 then 449 else 401
     else
      if i < 731 then
       if i < 729 then if i < 728 then 3 else 228 else if i < 730 then 433 else 899
      else
       if i < 733 then if i < 732 then 828 else 828 else if i < 734 then 830 else 831
    else
     if i < 742 then
      if i < 738 then
       if i < 736 then 19 else if i < 737 then 203 else 724
      else
       if i < 740 then if i < 739 then 52 else 52 else if i < 741 then 432 else 412
     else
      if i < 746 then
       if i < 744 then if i < 743 then 443 else 249 else if i < 745 then 828 else 828
      else
       if i < 748 then if i < 747 then 830 else 831 else if i < 749 then 19 else 229
  }

  function Action25(i: int): int {
    if i < 765 then
     if i < 757 then
      if i < 753 then
       if i < 751 then 407 else if i < 752 then 153 else 83
      else
       if i < 755 then if i < 754 then 84 else 765 else if i < 756 then 177 else 241
     else
      if i < 761 then
       if i < 759 then if i < 758 then 454 else 725 else if i < 760 then 85 else 356
      else
       if i < 763 then if i < 762 then 356 else 120 else if i < 764 then 157 else 963
    else
     if i < 772 then
      if i < 768 then
       if i < 766 then 964 else if i < 767 then 58 else 981
      else
       if i < 770 then if i < 769 then 413 else 359 else if i < 771 then 334 else 452
     else
      if i < 776 then
       if i < 774 then if i < 773 then 272 else 432 else if i < 775 then 434 else 324
      else
       if i < 778 then if i < 777 then 794 else 32 else if i < 779 then 32 else 86
  }

  function Action26(i: int): int {
    if i < 795 then
     if i < 787 then
      if i < 783 then
       if i < 781 then 449 else if i < 782 then 780 else 3
      else
       if i < 785 then if i < 784 then 345 else 98 else if i < 786 then 98 else 98
     else
      if i < 791 then
       if i < 789 then if i < 788 then 98 else 438 else if i < 790 then 96 else 96
      else
       if i < 793 then if i < 792 then 96 else 96 else if i < 794 then 95 else 95
    else
     if i < 802 then
      if i < 798 then
       if i < 796 then 94 else if i < 797 then 94 else 94
      else
       if i < 800 then if i < 799 then 93 else 355 else if i < 801 then 836 else 120
     else
      if i < 806 then
       if i < 804 then if i < 803 then 456 else 455 else if i < 805 then 817 else 891
      else
       if i < 808 then if i < 807 then 823 else 83 else if i < 809 then 84 else 981
  }

  function Action27(i: int): int {
    if i < 825 then
     if i < 817 then
      if i < 813 then
       if i < 811 then 817 else if i < 812 then 132 else 414
      else
       if i < 815 then if i < 814 then 924 else 85 else if i < 816 then 356 else 356
     else
      if i < 821 then
       if i < 819 then if i < 818 then 132 else 411 else if i < 820 then 793 else 962
      else
       if i < 823 then if i < 822 then 962 else 92 else if i < 824 then 89 else 178
    else
     if i < 832 then
      if i < 828 then
       if i < 826 then 921 else if i < 827 then 452 else 266
      else
       if i < 830 then if i < 829 then 374 else 265 else if i < 831 then 82 else 918
     else
      if i < 836 then
       if i < 834 then if i < 833 then 80 else 266 else if i < 835 then 374 else 265
      else
       if i < 838 then if i < 837 then 780 else 828 else if i < 839 then 828 else 830
  }

  function Action28(i: int): int {
    if i < 855 then
     if i < 847 then
      if i < 843 then
       if i < 841 then 831 else if i < 842 then 19 else 938
      else
       if i < 845 then if i < 844 then 438 else 96 else if i < 846 then 96 else 96
     else
      if i < 851 then
       if i < 849 then if i < 848 then 96 else 95 else if i < 850 then 95 else 94
      else
       if i < 853 then if i < 852 then 94 else 94 else if i < 854 then 93 else 355
    else
     if i < 862 then
      if i < 858 then
       if i < 856 then 836 else if i < 857 then 74 else 456
      else
       if i < 860 then if i < 859 then 455 else 962 else if i < 861 then 962 else 823
     else
      if i < 866 then
       if i < 864 then if i < 863 then 963 else 964 else if i < 865 then 120 else 92
      else
       if i < 868 then if i < 867 then 89 else 178 else if i < 869 then 949 else 2
  }

  function Action29(i: int): int {
    if i < 885 then
     if i < 877 then
      if i < 873 then
       if i < 871 then 922 else if i < 872 then 969 else 272
      else
       if i < 875 then if i < 874 then 1 else 980 else if i < 876 then 76 else 449
     else
      if i < 881 then
       if i < 879 then if i < 878 then 766 else 3 else if i < 880 then 712 else 905
      else
       if i < 883 then if i < 882 then 905 else 391 else if i < 884 then 962 else 962
    else
     if i < 892 then
      if i < 888 then
       if i < 886 then 761 else if i < 887 then 923 else 375
      else
       if i < 890 then if i < 889 then 744 else 782 else if i < 891 then 760 else 261
     else
      if i < 896 then
       if i < 894 then if i < 893 then 828 else 828 else if i < 895 then 830 else 831
      else
       if i < 898 then if i < 897 then 19 else 421 else if i < 899 then 745 else 454
  }

  function Action30(i: int): int {
    if i < 915 then
     if i < 907 then
      if i < 903 then
       if i < 901 then 24 else if i < 902 then 963 else 964
      else
       if i < 905 then if i < 904 then 83 else 84 else if i < 906 then 373 else 962
     else
      if i < 911 then
       if i < 909 then if i < 908 then 962 else 177 else if i < 910 then 226 else 85
      else
       if i < 913 then if i < 912 then 356 else 356 else if i < 914 then 889 else 319
    else
     if i < 922 then
      if i < 918 then
       if i < 916 then 318 else if i < 917 then 317 else 215
      else
       if i < 920 then if i < 919 then 315 else 10 else if i < 921 then 10 else 687
     else
      if i < 926 then
       if i < 924 then if i < 923 then 452 else 353 else if i < 925 then 352 else 963
      else
       if i < 928 then if i < 927 then 964 else 913 else if i < 929 then 781 else 157
  }

  function Action31(i: int): int {
    if i < 945 then
     if i < 937 then
      if i < 933 then
       if i < 931 then 120 else if i < 932 then 962 else 962
      else
       if i < 935 then if i < 934 then 341 else 780 else if i < 936 then 420 else 715
     else
      if i < 941 then
       if i < 939 then if i < 938 then 314 else 454 else if i < 940 then 438 else 454
      else
       if i < 943 then if i < 942 then 325 else 454 else if i < 944 then 795 else 103
    else
     if i < 952 then
      if i < 948 then
       if i < 946 then 200 else if i < 947 then 175 else 454
      else
       if i < 950 then if i < 949 then 963 else 964 else if i < 951 then 912 else 836
     else
      if i < 956 then
       if i < 954 then if i < 953 then 796 else 456 else if i < 955 then 455 else 9
      else
       if i < 958 then if i < 957 then 9 else 823 else if i < 959 then 10 else 10
  }

  function Action32(i: int): int {
    if i < 975 then
     if i < 967 then
      if i < 963 then
       if i < 961 then 52 else if i < 962 then 52 else 51
      else
       if i < 965 then if i < 964 then 51 else 180 else if i < 966 then 720 else 248
     else
      if i < 971 then
       if i < 969 then if i < 968 then 10 else 10 else if i < 970 then 171 else 170
      else
       if i < 973 then if i < 972 then 167 else 343 else if i < 974 then 963 else 964
    else
     if i < 982 then
      if i < 978 then
       if i < 976 then 247 else if i < 977 then 988 else 706
      else
       if i < 980 then if i < 979 then 706 else 454 else if i < 981 then 719 else 233
     else
      if i < 986 then
       if i < 984 then if i < 983 then 690 else 986 else if i < 985 then 893 else 987
      else
       if i < 988 then if i < 987 then 182 else 918 else if i < 989 then 828 else 828
  }

  function Action33(i: int): int {
    if i < 1005 then
     if i < 997 then
      if i < 993 then
       if i < 991 then 830 else if i < 992 then 831 else 19
      else
       if i < 995 then if i < 994 then 183 else 260 else if i < 996 then 427 else 132
     else
      if i < 1001 then
       if i < 999 then if i < 998 then 181 else 398 else if i < 1000 then 10 else 10
      else
       if i < 1003 then if i < 1002 then 893 else 895 else if i < 1004 then 753 else 962
    else
     if i < 1012 then
      if i < 1008 then
       if i < 1006 then 962 else if i < 1007 then 921 else 272
      else
       if i < 1010 then if i < 1009 then 989 else 198 else if i < 1011 then 989 else 353
     else
      if i < 1016 then
       if i < 1014 then if i < 1013 then 352 else 429 else if i < 1015 then 419 else 303
      else
       if i < 1018 then if i < 1017 then 821 else 836 else if i < 1019 then 330 else 829
  }

  function Action34(i: int): int {
    if i < 1035 then
     if i < 1027 then
      if i < 1023 then
       if i < 1021 then 120 else if i < 1022 then 336 else 133
      else
       if i < 1025 then if i < 1024 then 823 else 272 else if i < 1026 then 98 else 98
     else
      if i < 1031 then
       if i < 1029 then if i < 1028 then 98 else 98 else if i < 1030 then 91 else 96
      else
       if i < 1033 then if i < 1032 then 96 else 96 else if i < 1034 then 96 else 95
    else
     if i < 1042 then
      if i < 1038 then
       if i < 1036 then 95 else if i < 1037 then 94 else 94
      else
       if i < 1040 then if i < 1039 then 94 else 93 else if i < 1041 then 355 else 157
     else
      if i < 1046 then
       if i < 1044 then if i < 1043 then 814 else 375 else if i < 1045 then 386 else 363
      else
       if i < 1048 then if i < 1047 then 963 else 964 else if i < 1049 then 362 else 272
  }

  function Action35(i: int): int {
    if i < 1065 then
     if i < 1057 then
      if i < 1053 then
       if i < 1051 then 454 else if i < 1052 then 922 else 372
      else
       if i < 1055 then if i < 1054 then 328 else 828 else if i < 1056 then 828 else 830
     else
      if i < 1061 then
       if i < 1059 then if i < 1058 then 454 else 713 else if i < 1060 then 454 else 268
      else
       if i < 1063 then if i < 1062 then 384 else 893 else if i < 1064 then 454 else 881
    else
     if i < 1072 then
      if i < 1068 then
       if i < 1066 then 750 else if i < 1067 then 257 else 923
      else
       if i < 1070 then if i < 1069 then 259 else 437 else if i < 1071 then 36 else 36
     else
      if i < 1076 then
       if i < 1074 then if i < 1073 then 234 else 454 else if i < 1075 then 234 else 120
      else
       if i < 1078 then if i < 1077 then 273 else 37 else if i < 1079 then 37 else 12
  }

  function Action36(i: int): int {
    if i < 1095 then
     if i < 1087 then
      if i < 1083 then
       if i < 1081 then 12 else if i < 1082 then 338 else 276
      else
       if i < 1085 then if i < 1084 then 27 else 27 else if i < 1086 then 454 else 334
     else
      if i < 1091 then
       if i < 1089 then if i < 1088 then 118 else 454 else if i < 1090 then 162 else 746
      else
       if i < 1093 then if i < 1092 then 284 else 454 else if i < 1094 then 38 else 38
    else
     if i < 1102 then
      if i < 1098 then
       if i < 1096 then 454 else if i < 1097 then 989 else 360
      else
       if i < 1100 then if i < 1099 then 989 else 454 else if i < 1101 then 713 else 1214
     else
      if i < 1106 then
       if i < 1104 then if i < 1103 then 454 else 132 else if i < 1105 then 454 else 39
      else
       if i < 1108 then if i < 1107 then 39 else 454 else if i < 1109 then 40 else 40
  }

  function Action37(i: int): int {
    if i < 1125 then
     if i < 1117 then
      if i < 1113 then
       if i < 1111 then 454 else if i < 1112 then 366 else 41
      else
       if i < 1115 then if i < 1114 then 41 else 454 else if i < 1116 then 42 else 42
     else
      if i < 1121 then
       if i < 1119 then if i < 1118 then 454 else 258 else if i < 1120 then 28 else 28
      else
       if i < 1123 then if i < 1122 then 454 else 29 else if i < 1124 then 29 else 31
    else
     if i < 1132 then
      if i < 1128 then
       if i < 1126 then 31 else if i < 1127 then 454 else 43
      else
       if i < 1130 then if i < 1129 then 43 else 454 else if i < 1131 then 44 else 44
     else
      if i < 1136 then
       if i < 1134 then if i < 1133 then 454 else 718 else if i < 1135 then 45 else 45
      else
       if i < 1138 then if i < 1137 then 454 else 11 else if i < 1139 then 11 else 771
  }

  function Action38(i: int): int {
    if i < 1155 then
     if i < 1147 then
      if i < 1143 then
       if i < 1141 then 454 else if i < 1142 then 46 else 46
      else
       if i < 1145 then if i < 1144 then 454 else 272 else if i < 1146 then 454 else 105
     else
      if i < 1151 then
       if i < 1149 then if i < 1148 then 105 else 454 else if i < 1150 then 47 else 47
      else
       if i < 1153 then if i < 1152 then 454 else 48 else if i < 1154 then 48 else 454
    else
     if i < 1162 then
      if i < 1158 then
       if i < 1156 then 237 else if i < 1157 then 33 else 33
      else
       if i < 1160 then if i < 1159 then 454 else 172 else if i < 1161 then 49 else 49
     else
      if i < 1166 then
       if i < 1164 then if i < 1163 then 454 else 50 else if i < 1165 then 50 else 34
      else
       if i < 1168 then if i < 1167 then 34 else 278 else if i < 1169 then 122 else 122
  }

  function Action39(i: int): int {
    if i < 1185 then
     if i < 1177 then
      if i < 1173 then
       if i < 1171 then 454 else if i < 1172 then 123 else 123
      else
       if i < 1175 then if i < 1174 then 454 else 124 else if i < 1176 then 124 else 454
     else
      if i < 1181 then
       if i < 1179 then if i < 1178 then 902 else 56 else if i < 1180 then 56 else 454
      else
       if i < 1183 then if i < 1182 then 901 else 35 else if i < 1184 then 35 else 454
    else
     if i < 1192 then
      if i < 1188 then
       if i < 1186 then 271 else if i < 1187 then 454 else 821
      else
       if i < 1190 then if i < 1189 then 454 else 821 else if i < 1191 then 106 else 106
     else
      if i < 1196 then
       if i < 1194 then if i < 1193 then 454 else 53 else if i < 1195 then 53 else 389
      else
       if i < 1198 then if i < 1197 then 107 else 107 else if i < 1199 then 454 else 821
  }

  function Action40(i: int): int {
    if i < 1215 then
     if i < 1207 then
      if i < 1203 then
       if i < 1201 then 108 else if i < 1202 then 108 else 821
      else
       if i < 1205 then if i < 1204 then 454 else 104 else if i < 1206 then 104 else 121
     else
      if i < 1211 then
       if i < 1209 then if i < 1208 then 121 else 119 else if i < 1210 then 119 else 454
      else
       if i < 1213 then if i < 1212 then 117 else 112 else if i < 1214 then 112 else 454
    else
     if i < 1222 then
      if i < 1218 then
       if i < 1216 then 280 else if i < 1217 then 454 else 225
      else
       if i < 1220 then if i < 1219 then 111 else 111 else if i < 1221 then 454 else 734
     else
      if i < 1226 then
       if i < 1224 then if i < 1223 then 454 else 109 else if i < 1225 then 109 else 454
      else
       if i < 1228 then if i < 1227 then 677 else 678 else if i < 1229 then 679 else 916
  }

  function Action41(i: int): int {
    if i < 1245 then
     if i < 1237 then
      if i < 1233 then
       if i < 1231 then 110 else if i < 1232 then 110 else 321
      else
       if i < 1235 then if i < 1234 then 1002 else 55 else if i < 1236 then 55 else 57
     else
      if i < 1241 then
       if i < 1239 then if i < 1238 then 57 else 696 else if i < 1240 then 335 else 54
      else
       if i < 1243 then if i < 1242 then 54 else 26 else if i < 1244 then 26 else 700
    else
     if i < 1252 then
      if i < 1248 then
       if i < 1246 then 30 else if i < 1247 then 30 else 321
      else
       if i < 1250 then if i < 1249 then 941 else 197 else if i < 1251 then 196 else 195
     else
      if i < 1256 then
       if i < 1254 then if i < 1253 then 339 else 285 else if i < 1255 then 340 else 450
      else
       if i < 1258 then if i < 1257 then 335 else 749 else if i < 1259 then 693 else 440
  }

  function Action42(i: int): int {
    if i < 1275 then
     if i < 1267 then
      if i < 1263 then
       if i < 1261 then 444 else if i < 1262 then 448 else 120
      else
       if i < 1265 then if i < 1264 then 72 else 390 else if i < 1266 then 223 else 175
     else
      if i < 1271 then
       if i < 1269 then if i < 1268 then 349 else 761 else if i < 1270 then 937 else 20
      else
       if i < 1273 then if i < 1272 then 290 else 323 else if i < 1274 then 760 else 819
    else
     if i < 1282 then
      if i < 1278 then
       if i < 1276 then 376 else if i < 1277 then 378 else 202
      else
       if i < 1280 then if i < 1279 then 202 else 202 else if i < 1281 then 267 else 399
     else
      if i < 1286 then
       if i < 1284 then if i < 1283 then 289 else 74 else if i < 1285 then 208 else 21
      else
       if i < 1288 then if i < 1287 then 700 else 723 else if i < 1289 then 722 else 888
  }

  function Action43(i: int): int {
    if i < 1305 then
     if i < 1297 then
      if i < 1293 then
       if i < 1291 then 120 else if i < 1292 then 120 else 120
      else
       if i < 1295 then if i < 1294 then 120 else 120 else if i < 1296 then 758 else 282
     else
      if i < 1301 then
       if i < 1299 then if i < 1298 then 832 else 77 else if i < 1300 then 74 else 730
      else
       if i < 1303 then if i < 1302 then 731 else 789 else if i < 1304 then 787 else 884
    else
     if i < 1312 then
      if i < 1308 then
       if i < 1306 then 202 else if i < 1307 then 1003 else 208
      else
       if i < 1310 then if i < 1309 then 898 else 897 else if i < 1311 then 898 else 897
     else
      if i < 1316 then
       if i < 1314 then if i < 1313 then 698 else 820 else if i < 1315 then 767 else 116
      else
       if i < 1318 then if i < 1317 then 778 else 1294 else if i < 1319 then 435 else 436
  }

  function Action44(i: int): int {
    if i < 1335 then
     if i < 1327 then
      if i < 1323 then
       if i < 1321 then 306 else if i < 1322 then 1003 else 394
      else
       if i < 1325 then if i < 1324 then 307 else 827 else if i < 1326 then 701 else 695
     else
      if i < 1331 then
       if i < 1329 then if i < 1328 then 684 else 159 else if i < 1330 then 293 else 683
      else
       if i < 1333 then if i < 1332 then 888 else 685 else if i < 1334 then 956 else 295
    else
     if i < 1342 then
      if i < 1338 then
       if i < 1336 then 218 else if i < 1337 then 297 else 7
      else
       if i < 1340 then if i < 1339 then 320 else 832 else if i < 1341 then 173 else 252
     else
      if i < 1346 then
       if i < 1344 then if i < 1343 then 263 else 368 else if i < 1345 then 256 else 915
      else
       if i < 1348 then if i < 1347 then 380 else 717 else if i < 1349 then 299 else 439
  }

  function Action45(i: int): int {
    if i < 1365 then
     if i < 1357 then
      if i < 1353 then
       if i < 1351 then 312 else if i < 1352 then 168 else 959
      else
       if i < 1355 then if i < 1354 then 997 else 135 else if i < 1356 then 404 else 994
     else
      if i < 1361 then
       if i < 1359 then if i < 1358 then 288 else 886 else if i < 1360 then 885 else 205
      else
       if i < 1363 then if i < 1362 then 932 else 930 else if i < 1364 then 59 else 337
    else
     if i < 1372 then
      if i < 1368 then
       if i < 1366 then 62 else if i < 1367 then 144 else 156
      else
       if i < 1370 then if i < 1369 then 102 else 430 else if i < 1371 then 809 else 72
     else
      if i < 1376 then
       if i < 1374 then if i < 1373 then 130 else 251 else if i < 1375 then 137 else 370
      else
       if i < 1378 then if i < 1377 then 371 else 397 else if i < 1379 then 185 else 160
  }

  function Action46(i: int): int {
    if i < 1395 then
     if i < 1387 then
      if i < 1383 then
       if i < 1381 then 387 else if i < 1382 then 189 else 67
      else
       if i < 1385 then if i < 1384 then 393 else 139 else if i < 1386 then 140 else 141
     else
      if i < 1391 then
       if i < 1389 then if i < 1388 then 779 else 142 else if i < 1390 then 148 else 816
      else
       if i < 1393 then if i < 1392 then 806 else 255 else if i < 1394 then 900 else 254
    else
     if i < 1402 then
      if i < 1398 then
       if i < 1396 then 270 else if i < 1397 then 219 else 154
      else
       if i < 1400 then if i < 1399 then 190 else 917 else if i < 1401 then 880 else 395
     else
      if i < 1406 then
       if i < 1404 then if i < 1403 then 410 else 275 else if i < 1405 then 326 else 191
      else
       if i < 1408 then if i < 1407 then 737 else 736 else if i < 1409 then 686 else 735
  }

  function Action47(i: int): int {
    if i < 1425 then
     if i < 1417 then
      if i < 1413 then
       if i < 1411 then 346 else if i < 1412 then 728 else 192
      else
       if i < 1415 then if i < 1414 then 327 else 715 else if i < 1416 then 425 else 6
     else
      if i < 1421 then
       if i < 1419 then if i < 1418 then 71 else 350 else if i < 1420 then 79 else 775
      else
       if i < 1423 then if i < 1422 then 292 else 204 else if i < 1424 then 776 else 709
    else
     if i < 1432 then
      if i < 1428 then
       if i < 1426 then 774 else if i < 1427 then 294 else 296
      else
       if i < 1430 then if i < 1429 then 301 else 773 else if i < 1431 then 287 else 708
     else
      if i < 1436 then
       if i < 1434 then if i < 1433 then 866 else 298 else if i < 1435 then 707 else 971
      else
       if i < 1438 then if i < 1437 then 757 else 213 else if i < 1439 then 428 else 442
  }

  function Action48(i: int): int {
    if i < 1455 then
     if i < 1447 then
      if i < 1443 then
       if i < 1441 then 238 else if i < 1442 then 727 else 446
      else
       if i < 1445 then if i < 1444 then 73 else 239 else if i < 1446 then 240 else 692
     else
      if i < 1451 then
       if i < 1449 then if i < 1448 then 22 else 957 else if i < 1450 then 457 else 214
      else
       if i < 1453 then if i < 1452 then 216 else 217 else if i < 1454 then 458 else 681
    else
     if i < 1462 then
      if i < 1458 then
       if i < 1456 then 680 else if i < 1457 then 675 else 125
      else
       if i < 1460 then if i < 1459 then 115 else 126 else if i < 1461 then 673 else 235
     else
      if i < 1466 then
       if i < 1464 then if i < 1463 then 357 else 166 else if i < 1465 then 127 else 244
      else
       if i < 1468 then if i < 1467 then 179 else 361 else if i < 1469 then 308 else 309
  }

  function Action49(i: int): int {
    if i < 1485 then
     if i < 1477 then
      if i < 1473 then
       if i < 1471 then 310 else if i < 1472 then 311 else 896
      else
       if i < 1475 then if i < 1474 then 113 else 815 else if i < 1476 then 331 else 894
     else
      if i < 1481 then
       if i < 1479 then if i < 1478 then 136 else 128 else if i < 1480 then 332 else 747
      else
       if i < 1483 then if i < 1482 then 138 else 262 else if i < 1484 then 911 else 143
    else
     if i < 1492 then
      if i < 1488 then
       if i < 1486 then 184 else if i < 1487 then 145 else 63
      else
       if i < 1490 then if i < 1489 then 129 else 64 else if i < 1491 then 914 else 65
     else
      if i < 1496 then
       if i < 1494 then if i < 1493 then 66 else 186 else if i < 1495 then 187 else 910
      else
       if i < 1498 then if i < 1497 then 8 else 13 else if i < 1499 then 188 else 903
  }

  function Action50(i: int): int {
    if i < 1515 then
     if i < 1507 then
      if i < 1503 then
       if i < 1501 then 202 else if i < 1502 then 991 else 269
      else
       if i < 1505 then if i < 1504 then 149 else 392 else if i < 1506 then 150 else 689
     else
      if i < 1511 then
       if i < 1509 then if i < 1508 then 161 else 396 else if i < 1510 then 289 else 193
      else
       if i < 1513 then if i < 1512 then 283 else 151 else if i < 1514 then 134 else 68
    else
     if i < 1522 then
      if i < 1518 then
       if i < 1516 then 400 else if i < 1517 then 405 else 14
      else
       if i < 1520 then if i < 1519 then 15 else 726 else if i < 1521 then 69 else 236
     else
      if i < 1526 then
       if i < 1524 then if i < 1523 then 835 else 834 else if i < 1525 then 864 else 755
      else
       if i < 1528 then if i < 1527 then 131 else 16 else if i < 1529 then 70 else 759
  }

  function Action51(i: int): int {
    if i < 1545 then
     if i < 1537 then
      if i < 1533 then
       if i < 1531 then 4 else if i < 1532 then 201 else 174
      else
       if i < 1535 then if i < 1534 then 418 else 220 else if i < 1536 then 222 else 788
     else
      if i < 1541 then
       if i < 1539 then if i < 1538 then 152 else 868 else if i < 1540 then 783 else 77
      else
       if i < 1543 then if i < 1542 then 17 else 74 else if i < 1544 then 18 else 879
    else
     if i < 1552 then
      if i < 1548 then
       if i < 1546 then 865 else if i < 1547 then 863 else 920
      else
       if i < 1550 then if i < 1549 then 210 else 919 else if i < 1551 then 207 else 206
     else
      if i < 1556 then
       if i < 1554 then if i < 1553 then 946 else 163 else if i < 1555 then 441 else 211
      else
       if i < 1558 then if i < 1557 then 947 else 164 else if i < 1559 then 209 else 165
  }

  function Action52(i: int): int {
    if i < 1565 then
     if i < 1562 then
      if i < 1561 then 445 else 867
     else
      if i < 1563 then 833 else if i < 1564 then 699 else 87
    else
     if i < 1567 then
      if i < 1566 then 1296 else 1295
     else
      if i < 1568 then 313 else if i < 1569 then 316 else 952
  }

  /** yy_action: what to do in each slot of the packed table. */
  function Action(i: int): int {
    if i < 780 then
     if i < 390 then
      if i < 180 then
       if i < 90 then
        if i < 30 then Action0(i) else if i < 60 then Action1(i) else Action2(i)
       else
        if i < 120 then Action3(i) else if i < 150 then Action4(i) else Action5(i)
      else
       if i < 270 then
        if i < 210 then Action6(i) else if i < 240 then Action7(i) else Action8(i)
       else
        if i < 330 then
         if i < 300 then Action9(i) else Action10(i)
        else
         if i < 360 then Action11(i) else Action12(i)
     else
      if i < 570 then
       if i < 480 then
        if i < 420 then Action13(i) else if i < 450 then Action14(i) else Action15(i)
       else
        if i < 510 then Action16(i) else if i < 540 then Action17(i) else Action18(i)
      else
       if i < 660 then
        if i < 600 then Action19(i) else if i < 630 then Action20(i) else Action21(i)
       else
        if i < 720 then
         if i < 690 then Action22(i) else Action23(i)
        else
         if i < 750 then Action24(i) else Action25(i)
    else
     if i < 1170 then
      if i < 960 then
       if i < 870 then
        if i < 810 then Action26(i) else if i < 840 then Action27(i) else Action28(i)
       else
        if i < 900 then Action29(i) else if i < 930 then Action30(i) else Action31(i)
      else
       if i < 1050 then
        if i < 990 then Action32(i) else if i < 1020 then Action33(i) else Action34(i)
       else
        if i < 1110 then
         if i < 1080 then Action35(i) else Action36(i)
        else
         if i < 1140 then Action37(i) else Action38(i)
     else
      if i < 1380 then
       if i < 1260 then
        if i < 1200 then Action39(i) else if i < 1230 then Action40(i) else Action41(i)
       else
        if i < 1320 then
         if i < 1290 then Action42(i) else Action43(i)
        else
         if i < 1350 then Action44(i) else Action45(i)
      else
       if i < 1470 then
        if i < 1410 then Action46(i) else if i < 1440 then Action47(i) else Action48(i)
       else
        if i < 1530 then
         if i < 1500 then Action49(i) else Action50(i)
        else
         if i < 1560 then Action51(i) else Action52(i)
  }

  function Lookahead0(i: int): int {
    if i < 15 then
     if i < 7 then
      if i < 3 then
       if i < 1 then 19 else if i < 2 then 95 else 53
      else
       if i < 5 then if i < 4 then 97 else 22 else if i < 6 then 24 else 24
     else
      if i < 11 then
       if i < 9 then if i < 8 then 101 else 27 else if i < 10 then 28 else 29
      else
       if i < 13 then if i < 12 then 30 else 31 else if i < 14 then 32 else 33
    else
     if i < 22 then
      if i < 18 then
       if i < 16 then 34 else if i < 17 then 35 else 36
      else
       if i < 20 then if i < 19 then 37 else 38 else if i < 21 then 39 else 40
     else
      if i < 26 then
       if i < 24 then if i < 23 then 41 else 152 else if i < 25 then 43 else 44
      else
       if i < 28 then if i < 27 then 45 else 46 else if i < 29 then 47 else 48
  }

  function Lookahead1(i: int): int {
    if i < 45 then
     if i < 37 then
      if i < 33 then
       if i < 31 then 49 else if i < 32 then 50 else 51
      else
       if i < 35 then if i < 34 then 52 else 53 else if i < 36 then 19 else 55
     else
      if i < 41 then
       if i < 39 then if i < 38 then 55 else 132 else if i < 40 then 133 else 134
      else
       if i < 43 then if i < 42 then 1 else 2 else if i < 44 then 27 else 28
    else
     if i < 52 then
      if i < 48 then
       if i < 46 then 29 else if i < 47 then 30 else 31
      else
       if i < 50 then if i < 49 then 32 else 33 else if i < 51 then 34 else 35
     else
      if i < 56 then
       if i < 54 then if i < 53 then 36 else 37 else if i < 55 then 38 else 39
      else
       if i < 58 then if i < 57 then 40 else 41 else if i < 59 then 187 else 43
  }

  function Lookahead2(i: int): int {
    if i < 75 then
     if i < 67 then
      if i < 63 then
       if i < 61 then 44 else if i < 62 then 45 else 46
      else
       if i < 65 then if i < 64 then 47 else 48 else if i < 66 then 49 else 50
     else
      if i < 71 then
       if i < 69 then if i < 68 then 51 else 52 else if i < 70 then 53 else 47
      else
       if i < 73 then if i < 72 then 48 else 49 else if i < 74 then 50 else 51
    else
     if i < 82 then
      if i < 78 then
       if i < 76 then 52 else if i < 77 then 53 else 61
      else
       if i < 80 then if i < 79 then 97 else 97 else if i < 81 then 19 else 49
     else
      if i < 86 then
       if i < 84 then if i < 83 then 50 else 51 else if i < 85 then 52 else 53
      else
       if i < 88 then if i < 87 then 70 else 26 else if i < 89 then 27 else 28
  }

  function Lookahead3(i: int): int {
    if i < 105 then
     if i < 97 then
      if i < 93 then
       if i < 91 then 29 else if i < 92 then 30 else 31
      else
       if i < 95 then if i < 94 then 32 else 33 else if i < 96 then 34 else 35
     else
      if i < 101 then
       if i < 99 then if i < 98 then 36 else 37 else if i < 100 then 38 else 39
      else
       if i < 103 then if i < 102 then 40 else 41 else if i < 104 then 152 else 43
    else
     if i < 112 then
      if i < 108 then
       if i < 106 then 44 else if i < 107 then 45 else 46
      else
       if i < 110 then if i < 109 then 47 else 48 else if i < 111 then 49 else 50
     else
      if i < 116 then
       if i < 114 then if i < 113 then 51 else 52 else if i < 115 then 53 else 144
      else
       if i < 118 then if i < 117 then 145 else 146 else if i < 119 then 147 else 19
  }

  function Lookahead4(i: int): int {
    if i < 135 then
     if i < 127 then
      if i < 123 then
       if i < 121 then 16 else if i < 122 then 22 else 92
      else
       if i < 125 then if i < 124 then 172 else 173 else if i < 126 then 52 else 53
     else
      if i < 131 then
       if i < 129 then if i < 128 then 27 else 28 else if i < 130 then 29 else 30
      else
       if i < 133 then if i < 132 then 31 else 32 else if i < 134 then 33 else 34
    else
     if i < 142 then
      if i < 138 then
       if i < 136 then 35 else if i < 137 then 36 else 37
      else
       if i < 140 then if i < 139 then 38 else 39 else if i < 141 then 40 else 41
     else
      if i < 146 then
       if i < 144 then if i < 143 then 81 else 43 else if i < 145 then 44 else 45
      else
       if i < 148 then if i < 147 then 46 else 47 else if i < 149 then 48 else 49
  }

  function Lookahead5(i: int): int {
    if i < 165 then
     if i < 157 then
      if i < 153 then
       if i < 151 then 50 else if i < 152 then 51 else 52
      else
       if i < 155 then if i < 154 then 53 else 55 else if i < 156 then 56 else 19
     else
      if i < 161 then
       if i < 159 then if i < 158 then 152 else 207 else if i < 160 then 208 else 115
      else
       if i < 163 then if i < 162 then 24 else 117 else if i < 164 then 118 else 27
    else
     if i < 172 then
      if i < 168 then
       if i < 166 then 28 else if i < 167 then 29 else 30
      else
       if i < 170 then if i < 169 then 31 else 32 else if i < 171 then 33 else 34
     else
      if i < 176 then
       if i < 174 then if i < 173 then 35 else 36 else if i < 175 then 37 else 38
      else
       if i < 178 then if i < 177 then 39 else 40 else if i < 179 then 41 else 79
  }

  function Lookahead6(i: int): int {
    if i < 195 then
     if i < 187 then
      if i < 183 then
       if i < 181 then 43 else if i < 182 then 44 else 45
      else
       if i < 185 then if i < 184 then 46 else 47 else if i < 186 then 48 else 49
     else
      if i < 191 then
       if i < 189 then if i < 188 then 50 else 51 else if i < 190 then 52 else 53
      else
       if i < 193 then if i < 192 then 19 else 88 else if i < 194 then 157 else 90
    else
     if i < 202 then
      if i < 198 then
       if i < 196 then 23 else if i < 197 then 97 else 98
      else
       if i < 200 then if i < 199 then 193 else 27 else if i < 201 then 28 else 29
     else
      if i < 206 then
       if i < 204 then if i < 203 then 30 else 31 else if i < 205 then 32 else 33
      else
       if i < 208 then if i < 207 then 34 else 35 else if i < 209 then 36 else 37
  }

  function Lookahead7(i: int): int {
    if i < 225 then
     if i < 217 then
      if i < 213 then
       if i < 211 then 38 else if i < 212 then 39 else 40
      else
       if i < 215 then if i < 214 then 41 else 152 else if i < 216 then 43 else 44
     else
      if i < 221 then
       if i < 219 then if i < 218 then 45 else 46 else if i < 220 then 47 else 48
      else
       if i < 223 then if i < 222 then 49 else 50 else if i < 224 then 51 else 52
    else
     if i < 232 then
      if i < 228 then
       if i < 226 then 53 else if i < 227 then 19 else 22
      else
       if i < 230 then if i < 229 then 23 else 172 else if i < 231 then 23 else 26
     else
      if i < 236 then
       if i < 234 then if i < 233 then 119 else 120 else if i < 235 then 27 else 28
      else
       if i < 238 then if i < 237 then 29 else 30 else if i < 239 then 31 else 32
  }

  function Lookahead8(i: int): int {
    if i < 255 then
     if i < 247 then
      if i < 243 then
       if i < 241 then 33 else if i < 242 then 34 else 35
      else
       if i < 245 then if i < 244 then 36 else 37 else if i < 246 then 38 else 39
     else
      if i < 251 then
       if i < 249 then if i < 248 then 40 else 41 else if i < 250 then 187 else 43
      else
       if i < 253 then if i < 252 then 44 else 45 else if i < 254 then 46 else 47
    else
     if i < 262 then
      if i < 258 then
       if i < 256 then 48 else if i < 257 then 49 else 50
      else
       if i < 260 then if i < 259 then 51 else 52 else if i < 261 then 53 else 19
     else
      if i < 266 then
       if i < 264 then if i < 263 then 22 else 23 else if i < 265 then 228 else 23
      else
       if i < 268 then if i < 267 then 26 else 231 else if i < 269 then 152 else 27
  }

  function Lookahead9(i: int): int {
    if i < 285 then
     if i < 277 then
      if i < 273 then
       if i < 271 then 28 else if i < 272 then 29 else 30
      else
       if i < 275 then if i < 274 then 31 else 32 else if i < 276 then 33 else 34
     else
      if i < 281 then
       if i < 279 then if i < 278 then 35 else 36 else if i < 280 then 37 else 38
      else
       if i < 283 then if i < 282 then 39 else 40 else if i < 284 then 41 else 172
    else
     if i < 292 then
      if i < 288 then
       if i < 286 then 43 else if i < 287 then 44 else 45
      else
       if i < 290 then if i < 289 then 46 else 47 else if i < 291 then 48 else 49
     else
      if i < 296 then
       if i < 294 then if i < 293 then 50 else 51 else if i < 295 then 52 else 53
      else
       if i < 298 then if i < 297 then 19 else 221 else if i < 299 then 222 else 223
  }

  function Lookahead10(i: int): int {
    if i < 315 then
     if i < 307 then
      if i < 303 then
       if i < 301 then 23 else if i < 302 then 96 else 152
      else
       if i < 305 then if i < 304 then 172 else 27 else if i < 306 then 28 else 29
     else
      if i < 311 then
       if i < 309 then if i < 308 then 30 else 31 else if i < 310 then 32 else 33
      else
       if i < 313 then if i < 312 then 34 else 35 else if i < 314 then 36 else 37
    else
     if i < 322 then
      if i < 318 then
       if i < 316 then 38 else if i < 317 then 39 else 40
      else
       if i < 320 then if i < 319 then 41 else 152 else if i < 321 then 43 else 44
     else
      if i < 326 then
       if i < 324 then if i < 323 then 45 else 46 else if i < 325 then 47 else 48
      else
       if i < 328 then if i < 327 then 49 else 50 else if i < 329 then 51 else 52
  }

  function Lookahead11(i: int): int {
    if i < 345 then
     if i < 337 then
      if i < 333 then
       if i < 331 then 53 else if i < 332 then 19 else 0
      else
       if i < 335 then if i < 334 then 1 else 2 else if i < 336 then 23 else 96
     else
      if i < 341 then
       if i < 339 then if i < 338 then 190 else 191 else if i < 340 then 27 else 28
      else
       if i < 343 then if i < 342 then 29 else 30 else if i < 344 then 31 else 32
    else
     if i < 352 then
      if i < 348 then
       if i < 346 then 33 else if i < 347 then 34 else 35
      else
       if i < 350 then if i < 349 then 36 else 37 else if i < 351 then 38 else 39
     else
      if i < 356 then
       if i < 354 then if i < 353 then 40 else 41 else if i < 355 then 238 else 43
      else
       if i < 358 then if i < 357 then 44 else 45 else if i < 359 then 46 else 47
  }

  function Lookahead12(i: int): int {
    if i < 375 then
     if i < 367 then
      if i < 363 then
       if i < 361 then 48 else if i < 362 then 49 else 50
      else
       if i < 365 then if i < 364 then 51 else 52 else if i < 366 then 53 else 19
     else
      if i < 371 then
       if i < 369 then if i < 368 then 185 else 218 else if i < 370 then 221 else 222
      else
       if i < 373 then if i < 372 then 223 else 152 else if i < 374 then 152 else 27
    else
     if i < 382 then
      if i < 378 then
       if i < 376 then 28 else if i < 377 then 29 else 30
      else
       if i < 380 then if i < 379 then 31 else 32 else if i < 381 then 33 else 34
     else
      if i < 386 then
       if i < 384 then if i < 383 then 35 else 36 else if i < 385 then 37 else 38
      else
       if i < 388 then if i < 387 then 39 else 40 else if i < 389 then 41 else 241
  }

  function Lookahead13(i: int): int {
    if i < 405 then
     if i < 397 then
      if i < 393 then
       if i < 391 then 43 else if i < 392 then 44 else 45
      else
       if i < 395 then if i < 394 then 46 else 47 else if i < 396 then 48 else 49
     else
      if i < 401 then
       if i < 399 then if i < 398 then 50 else 51 else if i < 400 then 52 else 53
      else
       if i < 403 then if i < 402 then 19 else 152 else if i < 404 then 168 else 169
    else
     if i < 412 then
      if i < 408 then
       if i < 406 then 170 else if i < 407 then 22 else 190
      else
       if i < 410 then if i < 409 then 191 else 27 else if i < 411 then 28 else 29
     else
      if i < 416 then
       if i < 414 then if i < 413 then 30 else 31 else if i < 415 then 32 else 33
      else
       if i < 418 then if i < 417 then 34 else 35 else if i < 419 then 36 else 37
  }

  function Lookahead14(i: int): int {
    if i < 435 then
     if i < 427 then
      if i < 423 then
       if i < 421 then 38 else if i < 422 then 39 else 40
      else
       if i < 425 then if i < 424 then 41 else 152 else if i < 426 then 43 else 44
     else
      if i < 431 then
       if i < 429 then if i < 428 then 45 else 46 else if i < 430 then 47 else 48
      else
       if i < 433 then if i < 432 then 49 else 50 else if i < 434 then 51 else 52
    else
     if i < 442 then
      if i < 438 then
       if i < 436 then 53 else if i < 437 then 19 else 19
      else
       if i < 440 then if i < 439 then 218 else 55 else if i < 441 then 56 else 24
     else
      if i < 446 then
       if i < 444 then if i < 443 then 22 else 152 else if i < 445 then 27 else 28
      else
       if i < 448 then if i < 447 then 29 else 30 else if i < 449 then 31 else 32
  }

  function Lookahead15(i: int): int {
    if i < 465 then
     if i < 457 then
      if i < 453 then
       if i < 451 then 33 else if i < 452 then 34 else 35
      else
       if i < 455 then if i < 454 then 36 else 37 else if i < 456 then 38 else 39
     else
      if i < 461 then
       if i < 459 then if i < 458 then 40 else 41 else if i < 460 then 152 else 43
      else
       if i < 463 then if i < 462 then 44 else 45 else if i < 464 then 46 else 47
    else
     if i < 472 then
      if i < 468 then
       if i < 466 then 48 else if i < 467 then 49 else 50
      else
       if i < 470 then if i < 469 then 51 else 52 else if i < 471 then 53 else 250
     else
      if i < 476 then
       if i < 474 then if i < 473 then 194 else 195 else if i < 475 then 56 else 55
      else
       if i < 478 then if i < 477 then 56 else 55 else if i < 479 then 19 else 172
  }

  function Lookahead16(i: int): int {
    if i < 495 then
     if i < 487 then
      if i < 483 then
       if i < 481 then 173 else if i < 482 then 97 else 98
      else
       if i < 485 then if i < 484 then 152 else 206 else if i < 486 then 138 else 27
     else
      if i < 491 then
       if i < 489 then if i < 488 then 28 else 29 else if i < 490 then 30 else 31
      else
       if i < 493 then if i < 492 then 32 else 33 else if i < 494 then 34 else 35
    else
     if i < 502 then
      if i < 498 then
       if i < 496 then 36 else if i < 497 then 37 else 38
      else
       if i < 500 then if i < 499 then 39 else 40 else if i < 501 then 41 else 152
     else
      if i < 506 then
       if i < 504 then if i < 503 then 43 else 44 else if i < 505 then 45 else 46
      else
       if i < 508 then if i < 507 then 47 else 48 else if i < 509 then 49 else 50
  }

  function Lookahead17(i: int): int {
    if i < 525 then
     if i < 517 then
      if i < 513 then
       if i < 511 then 51 else if i < 512 then 52 else 53
      else
       if i < 515 then if i < 514 then 19 else 207 else if i < 516 then 208 else 152
     else
      if i < 521 then
       if i < 519 then if i < 518 then 97 else 98 else if i < 520 then 97 else 138
      else
       if i < 523 then if i < 522 then 27 else 28 else if i < 524 then 29 else 30
    else
     if i < 532 then
      if i < 528 then
       if i < 526 then 31 else if i < 527 then 32 else 33
      else
       if i < 530 then if i < 529 then 34 else 35 else if i < 531 then 36 else 37
     else
      if i < 536 then
       if i < 534 then if i < 533 then 38 else 39 else if i < 535 then 40 else 41
      else
       if i < 538 then if i < 537 then 181 else 43 else if i < 539 then 44 else 45
  }

  function Lookahead18(i: int): int {
    if i < 555 then
     if i < 547 then
      if i < 543 then
       if i < 541 then 46 else if i < 542 then 47 else 48
      else
       if i < 545 then if i < 544 then 49 else 50 else if i < 546 then 51 else 52
     else
      if i < 551 then
       if i < 549 then if i < 548 then 53 else 19 else if i < 550 then 30 else 31
      else
       if i < 553 then if i < 552 then 32 else 33 else if i < 554 then 247 else 248
    else
     if i < 562 then
      if i < 558 then
       if i < 556 then 19 else if i < 557 then 152 else 28
      else
       if i < 560 then if i < 559 then 29 else 30 else if i < 561 then 31 else 32
     else
      if i < 566 then
       if i < 564 then if i < 563 then 33 else 34 else if i < 565 then 35 else 36
      else
       if i < 568 then if i < 567 then 37 else 38 else if i < 569 then 39 else 40
  }

  function Lookahead19(i: int): int {
    if i < 585 then
     if i < 577 then
      if i < 573 then
       if i < 571 then 41 else if i < 572 then 152 else 43
      else
       if i < 575 then if i < 574 then 44 else 45 else if i < 576 then 46 else 47
     else
      if i < 581 then
       if i < 579 then if i < 578 then 48 else 49 else if i < 580 then 50 else 51
      else
       if i < 583 then if i < 582 then 52 else 53 else if i < 584 then 19 else 168
    else
     if i < 592 then
      if i < 588 then
       if i < 586 then 169 else if i < 587 then 170 else 238
      else
       if i < 590 then if i < 589 then 19 else 53 else if i < 591 then 152 else 172
     else
      if i < 596 then
       if i < 594 then if i < 593 then 173 else 29 else if i < 595 then 30 else 31
      else
       if i < 598 then if i < 597 then 32 else 33 else if i < 599 then 34 else 35
  }

  function Lookahead20(i: int): int {
    if i < 615 then
     if i < 607 then
      if i < 603 then
       if i < 601 then 36 else if i < 602 then 37 else 38
      else
       if i < 605 then if i < 604 then 39 else 40 else if i < 606 then 41 else 152
     else
      if i < 611 then
       if i < 609 then if i < 608 then 43 else 44 else if i < 610 then 45 else 46
      else
       if i < 613 then if i < 612 then 47 else 48 else if i < 614 then 49 else 50
    else
     if i < 622 then
      if i < 618 then
       if i < 616 then 51 else if i < 617 then 52 else 53
      else
       if i < 620 then if i < 619 then 19 else 20 else if i < 621 then 101 else 22
     else
      if i < 626 then
       if i < 624 then if i < 623 then 23 else 169 else if i < 625 then 170 else 56
      else
       if i < 628 then if i < 627 then 207 else 85 else if i < 629 then 55 else 56
  }

  function Lookahead21(i: int): int {
    if i < 645 then
     if i < 637 then
      if i < 633 then
       if i < 631 then 23 else if i < 632 then 19 else 20
      else
       if i < 635 then if i < 634 then 26 else 22 else if i < 636 then 99 else 100
     else
      if i < 641 then
       if i < 639 then if i < 638 then 101 else 102 else if i < 640 then 103 else 104
      else
       if i < 643 then if i < 642 then 105 else 238 else if i < 644 then 152 else 152
    else
     if i < 652 then
      if i < 648 then
       if i < 646 then 210 else if i < 647 then 47 else 48
      else
       if i < 650 then if i < 649 then 112 else 152 else if i < 651 then 108 else 109
     else
      if i < 656 then
       if i < 654 then if i < 653 then 110 else 54 else if i < 655 then 55 else 56
      else
       if i < 658 then if i < 657 then 221 else 222 else if i < 659 then 223 else 47
  }

  function Lookahead22(i: int): int {
    if i < 675 then
     if i < 667 then
      if i < 663 then
       if i < 661 then 48 else if i < 662 then 119 else 120
      else
       if i < 665 then if i < 664 then 172 else 173 else if i < 666 then 66 else 54
     else
      if i < 671 then
       if i < 669 then if i < 668 then 55 else 56 else if i < 670 then 152 else 97
      else
       if i < 673 then if i < 672 then 98 else 99 else if i < 674 then 148 else 149
    else
     if i < 682 then
      if i < 678 then
       if i < 676 then 102 else if i < 677 then 103 else 104
      else
       if i < 680 then if i < 679 then 66 else 154 else if i < 681 then 23 else 156
     else
      if i < 686 then
       if i < 684 then if i < 683 then 83 else 26 else if i < 685 then 230 else 152
      else
       if i < 688 then if i < 687 then 113 else 152 else if i < 689 then 163 else 194
  }

  function Lookahead23(i: int): int {
    if i < 705 then
     if i < 697 then
      if i < 693 then
       if i < 691 then 195 else if i < 692 then 92 else 92
      else
       if i < 695 then if i < 694 then 30 else 95 else if i < 696 then 83 else 97
     else
      if i < 701 then
       if i < 699 then if i < 698 then 98 else 207 else if i < 700 then 208 else 101
      else
       if i < 703 then if i < 702 then 206 else 179 else if i < 704 then 180 else 92
    else
     if i < 712 then
      if i < 708 then
       if i < 706 then 172 else if i < 707 then 173 else 95
      else
       if i < 710 then if i < 709 then 152 else 97 else if i < 711 then 98 else 188
     else
      if i < 716 then
       if i < 714 then if i < 713 then 99 else 101 else if i < 715 then 219 else 102
      else
       if i < 718 then if i < 717 then 103 else 104 else if i < 719 then 152 else 119
  }

  function Lookahead24(i: int): int {
    if i < 735 then
     if i < 727 then
      if i < 723 then
       if i < 721 then 120 else if i < 722 then 196 else 55
      else
       if i < 725 then if i < 724 then 56 else 19 else if i < 726 then 20 else 113
     else
      if i < 731 then
       if i < 729 then if i < 728 then 22 else 193 else if i < 730 then 163 else 11
      else
       if i < 733 then if i < 732 then 132 else 133 else if i < 734 then 134 else 135
    else
     if i < 742 then
      if i < 738 then
       if i < 736 then 136 else if i < 737 then 24 else 65
      else
       if i < 740 then if i < 739 then 172 else 173 else if i < 741 then 207 else 208
     else
      if i < 746 then
       if i < 744 then if i < 743 then 250 else 152 else if i < 745 then 132 else 133
      else
       if i < 748 then if i < 747 then 134 else 135 else if i < 749 then 136 else 193
  }

  function Lookahead25(i: int): int {
    if i < 765 then
     if i < 757 then
      if i < 753 then
       if i < 751 then 78 else if i < 752 then 84 else 47
      else
       if i < 755 then if i < 754 then 48 else 49 else if i < 756 then 98 else 199
     else
      if i < 761 then
       if i < 759 then if i < 758 then 152 else 86 else if i < 760 then 54 else 55
      else
       if i < 763 then if i < 762 then 56 else 196 else if i < 764 then 152 else 97
    else
     if i < 772 then
      if i < 768 then
       if i < 766 then 98 else if i < 767 then 209 else 55
      else
       if i < 770 then if i < 769 then 163 else 244 else if i < 771 then 107 else 66
     else
      if i < 776 then
       if i < 774 then if i < 773 then 152 else 207 else if i < 775 then 208 else 164
      else
       if i < 778 then if i < 777 then 175 else 172 else if i < 779 then 173 else 19
  }

  function Lookahead26(i: int): int {
    if i < 795 then
     if i < 787 then
      if i < 783 then
       if i < 781 then 20 else if i < 782 then 124 else 22
      else
       if i < 785 then if i < 784 then 111 else 38 else if i < 786 then 39 else 40
     else
      if i < 791 then
       if i < 789 then if i < 788 then 41 else 83 else if i < 790 then 43 else 44
      else
       if i < 793 then if i < 792 then 45 else 46 else if i < 794 then 47 else 48
    else
     if i < 802 then
      if i < 798 then
       if i < 796 then 49 else if i < 797 then 50 else 51
      else
       if i < 800 then if i < 799 then 52 else 53 else if i < 801 then 95 else 196
     else
      if i < 806 then
       if i < 804 then if i < 803 then 97 else 98 else if i < 805 then 85 else 152
      else
       if i < 808 then if i < 807 then 101 else 47 else if i < 809 then 48 else 97
  }

  function Lookahead27(i: int): int {
    if i < 825 then
     if i < 817 then
      if i < 813 then
       if i < 811 then 85 else if i < 812 then 92 else 207
      else
       if i < 815 then if i < 814 then 193 else 54 else if i < 816 then 55 else 56
     else
      if i < 821 then
       if i < 819 then if i < 818 then 92 else 49 else if i < 820 then 175 else 55
      else
       if i < 823 then if i < 822 then 56 else 221 else if i < 824 then 222 else 223
    else
     if i < 832 then
      if i < 828 then
       if i < 826 then 12 else if i < 827 then 66 else 108
      else
       if i < 830 then if i < 829 then 109 else 110 else if i < 831 then 137 else 163
     else
      if i < 836 then
       if i < 834 then if i < 833 then 139 else 108 else if i < 835 then 109 else 110
      else
       if i < 838 then if i < 837 then 26 else 132 else if i < 839 then 133 else 134
  }

  function Lookahead28(i: int): int {
    if i < 855 then
     if i < 847 then
      if i < 843 then
       if i < 841 then 135 else if i < 842 then 136 else 152
      else
       if i < 845 then if i < 844 then 83 else 43 else if i < 846 then 44 else 45
     else
      if i < 851 then
       if i < 849 then if i < 848 then 46 else 47 else if i < 850 then 48 else 49
      else
       if i < 853 then if i < 852 then 50 else 51 else if i < 854 then 52 else 53
    else
     if i < 862 then
      if i < 858 then
       if i < 856 then 95 else if i < 857 then 26 else 97
      else
       if i < 860 then if i < 859 then 98 else 55 else if i < 861 then 56 else 101
     else
      if i < 866 then
       if i < 864 then if i < 863 then 97 else 98 else if i < 865 then 196 else 221
      else
       if i < 868 then if i < 867 then 222 else 223 else if i < 869 then 146 else 147
  }

  function Lookahead29(i: int): int {
    if i < 885 then
     if i < 877 then
      if i < 873 then
       if i < 871 then 57 else if i < 872 then 171 else 152
      else
       if i < 875 then if i < 874 then 22 else 26 else if i < 876 then 19 else 20
     else
      if i < 881 then
       if i < 879 then if i < 878 then 49 else 22 else if i < 880 then 179 else 108
      else
       if i < 883 then if i < 882 then 109 else 110 else if i < 884 then 55 else 56
    else
     if i < 892 then
      if i < 888 then
       if i < 886 then 116 else if i < 887 then 73 else 219
      else
       if i < 890 then if i < 889 then 75 else 124 else if i < 891 then 121 else 152
     else
      if i < 896 then
       if i < 894 then if i < 893 then 132 else 133 else if i < 895 then 134 else 135
      else
       if i < 898 then if i < 897 then 136 else 163 else if i < 899 then 85 else 152
  }

  function Lookahead30(i: int): int {
    if i < 915 then
     if i < 907 then
      if i < 903 then
       if i < 901 then 232 else if i < 902 then 97 else 98
      else
       if i < 905 then if i < 904 then 47 else 48 else if i < 906 then 237 else 55
     else
      if i < 911 then
       if i < 909 then if i < 908 then 56 else 98 else if i < 910 then 5 else 54
      else
       if i < 913 then if i < 912 then 55 else 56 else if i < 914 then 193 else 10
    else
     if i < 922 then
      if i < 918 then
       if i < 916 then 11 else if i < 917 then 12 else 13
      else
       if i < 920 then if i < 919 then 14 else 172 else if i < 921 then 173 else 17
     else
      if i < 926 then
       if i < 924 then if i < 923 then 66 else 47 else if i < 925 then 48 else 97
      else
       if i < 928 then if i < 927 then 98 else 152 else if i < 929 then 124 else 152
  }

  function Lookahead31(i: int): int {
    if i < 945 then
     if i < 937 then
      if i < 933 then
       if i < 931 then 196 else if i < 932 then 55 else 56
      else
       if i < 935 then if i < 934 then 186 else 124 else if i < 936 then 152 else 106
     else
      if i < 941 then
       if i < 939 then if i < 938 then 160 else 152 else if i < 940 then 83 else 152
      else
       if i < 943 then if i < 942 then 164 else 152 else if i < 944 then 61 else 22
    else
     if i < 952 then
      if i < 948 then
       if i < 946 then 211 else if i < 947 then 212 else 152
      else
       if i < 950 then if i < 949 then 97 else 98 else if i < 951 then 152 else 95
     else
      if i < 956 then
       if i < 954 then if i < 953 then 70 else 97 else if i < 955 then 98 else 172
      else
       if i < 958 then if i < 957 then 173 else 101 else if i < 959 then 172 else 173
  }

  function Lookahead32(i: int): int {
    if i < 975 then
     if i < 967 then
      if i < 963 then
       if i < 961 then 172 else if i < 962 then 173 else 172
      else
       if i < 965 then if i < 964 then 173 else 60 else if i < 966 then 181 else 62
     else
      if i < 971 then
       if i < 969 then if i < 968 then 172 else 173 else if i < 970 then 47 else 48
      else
       if i < 973 then if i < 972 then 123 else 186 else if i < 974 then 97 else 98
    else
     if i < 982 then
      if i < 978 then
       if i < 976 then 71 else if i < 977 then 100 else 55
      else
       if i < 980 then if i < 979 then 56 else 152 else if i < 981 then 181 else 186
     else
      if i < 986 then
       if i < 984 then if i < 983 then 21 else 107 else if i < 985 then 152 else 109
      else
       if i < 988 then if i < 987 then 82 else 163 else if i < 989 then 132 else 133
  }

  function Lookahead33(i: int): int {
    if i < 1005 then
     if i < 997 then
      if i < 993 then
       if i < 991 then 134 else if i < 992 then 135 else 136
      else
       if i < 995 then if i < 994 then 89 else 16 else if i < 996 then 207 else 92
     else
      if i < 1001 then
       if i < 999 then if i < 998 then 93 else 19 else if i < 1000 then 172 else 173
      else
       if i < 1003 then if i < 1002 then 169 else 170 else if i < 1004 then 195 else 55
    else
     if i < 1012 then
      if i < 1008 then
       if i < 1006 then 56 else if i < 1007 then 12 else 152
      else
       if i < 1010 then if i < 1009 then 132 else 30 else if i < 1011 then 134 else 47
     else
      if i < 1016 then
       if i < 1014 then if i < 1013 then 48 else 186 else if i < 1015 then 206 else 225
      else
       if i < 1018 then if i < 1017 then 152 else 95 else if i < 1019 then 114 else 97
  }

  function Lookahead34(i: int): int {
    if i < 1035 then
     if i < 1027 then
      if i < 1023 then
       if i < 1021 then 196 else if i < 1022 then 245 else 246
      else
       if i < 1025 then if i < 1024 then 101 else 152 else if i < 1026 then 38 else 39
     else
      if i < 1031 then
       if i < 1029 then if i < 1028 then 40 else 41 else if i < 1030 then 42 else 43
      else
       if i < 1033 then if i < 1032 then 44 else 45 else if i < 1034 then 46 else 47
    else
     if i < 1042 then
      if i < 1038 then
       if i < 1036 then 48 else if i < 1037 then 49 else 50
      else
       if i < 1040 then if i < 1039 then 51 else 52 else if i < 1041 then 53 else 152
     else
      if i < 1046 then
       if i < 1044 then if i < 1043 then 163 else 219 else if i < 1045 then 152 else 141
      else
       if i < 1048 then if i < 1047 then 97 else 98 else if i < 1049 then 193 else 152
  }

  function Lookahead35(i: int): int {
    if i < 1065 then
     if i < 1057 then
      if i < 1053 then
       if i < 1051 then 152 else if i < 1052 then 57 else 91
      else
       if i < 1055 then if i < 1054 then 164 else 132 else if i < 1056 then 133 else 134
     else
      if i < 1061 then
       if i < 1059 then if i < 1058 then 152 else 55 else if i < 1060 then 152 else 152
      else
       if i < 1063 then if i < 1062 then 237 else 230 else if i < 1064 then 152 else 103
    else
     if i < 1072 then
      if i < 1068 then
       if i < 1066 then 193 else if i < 1067 then 88 else 73
      else
       if i < 1070 then if i < 1069 then 90 else 75 else if i < 1071 then 172 else 173
     else
      if i < 1076 then
       if i < 1074 then if i < 1073 then 183 else 152 else if i < 1075 then 185 else 196
      else
       if i < 1078 then if i < 1077 then 152 else 172 else if i < 1079 then 173 else 172
  }

  function Lookahead36(i: int): int {
    if i < 1095 then
     if i < 1087 then
      if i < 1083 then
       if i < 1081 then 173 else if i < 1082 then 217 else 152
      else
       if i < 1085 then if i < 1084 then 172 else 173 else if i < 1086 then 152 else 107
     else
      if i < 1091 then
       if i < 1089 then if i < 1088 then 22 else 152 else if i < 1090 then 24 else 193
      else
       if i < 1093 then if i < 1092 then 112 else 152 else if i < 1094 then 172 else 173
    else
     if i < 1102 then
      if i < 1098 then
       if i < 1096 then 152 else if i < 1097 then 132 else 242
      else
       if i < 1100 then if i < 1099 then 134 else 152 else if i < 1101 then 97 else 140
     else
      if i < 1106 then
       if i < 1104 then if i < 1103 then 152 else 92 else if i < 1105 then 152 else 172
      else
       if i < 1108 then if i < 1107 then 173 else 152 else if i < 1109 then 172 else 173
  }

  function Lookahead37(i: int): int {
    if i < 1125 then
     if i < 1117 then
      if i < 1113 then
       if i < 1111 then 152 else if i < 1112 then 100 else 172
      else
       if i < 1115 then if i < 1114 then 173 else 152 else if i < 1116 then 172 else 173
     else
      if i < 1121 then
       if i < 1119 then if i < 1118 then 152 else 140 else if i < 1120 then 172 else 173
      else
       if i < 1123 then if i < 1122 then 152 else 172 else if i < 1124 then 173 else 172
    else
     if i < 1132 then
      if i < 1128 then
       if i < 1126 then 173 else if i < 1127 then 152 else 172
      else
       if i < 1130 then if i < 1129 then 173 else 152 else if i < 1131 then 172 else 173
     else
      if i < 1136 then
       if i < 1134 then if i < 1133 then 152 else 152 else if i < 1135 then 172 else 173
      else
       if i < 1138 then if i < 1137 then 152 else 172 else if i < 1139 then 173 else 213
  }

  function Lookahead38(i: int): int {
    if i < 1155 then
     if i < 1147 then
      if i < 1143 then
       if i < 1141 then 152 else if i < 1142 then 172 else 173
      else
       if i < 1145 then if i < 1144 then 152 else 152 else if i < 1146 then 152 else 172
     else
      if i < 1151 then
       if i < 1149 then if i < 1148 then 173 else 152 else if i < 1150 then 172 else 173
      else
       if i < 1153 then if i < 1152 then 152 else 172 else if i < 1154 then 173 else 152
    else
     if i < 1162 then
      if i < 1158 then
       if i < 1156 then 210 else if i < 1157 then 172 else 173
      else
       if i < 1160 then if i < 1159 then 152 else 26 else if i < 1161 then 172 else 173
     else
      if i < 1166 then
       if i < 1164 then if i < 1163 then 152 else 172 else if i < 1165 then 173 else 172
      else
       if i < 1168 then if i < 1167 then 173 else 152 else if i < 1169 then 172 else 173
  }

  function Lookahead39(i: int): int {
    if i < 1185 then
     if i < 1177 then
      if i < 1173 then
       if i < 1171 then 152 else if i < 1172 then 172 else 173
      else
       if i < 1175 then if i < 1174 then 152 else 172 else if i < 1176 then 173 else 152
     else
      if i < 1181 then
       if i < 1179 then if i < 1178 then 59 else 172 else if i < 1180 then 173 else 152
      else
       if i < 1183 then if i < 1182 then 63 else 172 else if i < 1184 then 173 else 152
    else
     if i < 1192 then
      if i < 1188 then
       if i < 1186 then 193 else if i < 1187 then 152 else 152
      else
       if i < 1190 then if i < 1189 then 152 else 152 else if i < 1191 then 172 else 173
     else
      if i < 1196 then
       if i < 1194 then if i < 1193 then 152 else 172 else if i < 1195 then 173 else 77
      else
       if i < 1198 then if i < 1197 then 172 else 173 else if i < 1199 then 152 else 152
  }

  function Lookahead40(i: int): int {
    if i < 1215 then
     if i < 1207 then
      if i < 1203 then
       if i < 1201 then 172 else if i < 1202 then 173 else 152
      else
       if i < 1205 then if i < 1204 then 152 else 172 else if i < 1206 then 173 else 172
     else
      if i < 1211 then
       if i < 1209 then if i < 1208 then 173 else 172 else if i < 1210 then 173 else 152
      else
       if i < 1213 then if i < 1212 then 22 else 172 else if i < 1214 then 173 else 152
    else
     if i < 1222 then
      if i < 1218 then
       if i < 1216 then 152 else if i < 1217 then 152 else 22
      else
       if i < 1220 then if i < 1219 then 172 else 173 else if i < 1221 then 152 else 152
     else
      if i < 1226 then
       if i < 1224 then if i < 1223 then 152 else 172 else if i < 1225 then 173 else 152
      else
       if i < 1228 then if i < 1227 then 7 else 8 else if i < 1229 then 9 else 163
  }

  function Lookahead41(i: int): int {
    if i < 1245 then
     if i < 1237 then
      if i < 1233 then
       if i < 1231 then 172 else if i < 1232 then 173 else 22
      else
       if i < 1235 then if i < 1234 then 23 else 172 else if i < 1236 then 173 else 172
     else
      if i < 1241 then
       if i < 1239 then if i < 1238 then 173 else 166 else if i < 1240 then 167 else 172
      else
       if i < 1243 then if i < 1242 then 173 else 172 else if i < 1244 then 173 else 55
    else
     if i < 1252 then
      if i < 1248 then
       if i < 1246 then 172 else if i < 1247 then 173 else 22
      else
       if i < 1250 then if i < 1249 then 23 else 108 else if i < 1251 then 109 else 110
     else
      if i < 1256 then
       if i < 1254 then if i < 1253 then 217 else 152 else if i < 1255 then 217 else 166
      else
       if i < 1258 then if i < 1257 then 167 else 163 else if i < 1259 then 163 else 163
  }

  function Lookahead42(i: int): int {
    if i < 1275 then
     if i < 1267 then
      if i < 1263 then
       if i < 1261 then 163 else if i < 1262 then 163 else 196
      else
       if i < 1265 then if i < 1264 then 130 else 217 else if i < 1266 then 211 else 212
     else
      if i < 1271 then
       if i < 1269 then if i < 1268 then 217 else 116 else if i < 1270 then 23 else 22
      else
       if i < 1273 then if i < 1272 then 101 else 26 else if i < 1274 then 121 else 23
    else
     if i < 1282 then
      if i < 1278 then
       if i < 1276 then 23 else if i < 1277 then 23 else 26
      else
       if i < 1280 then if i < 1279 then 26 else 26 else if i < 1281 then 23 else 23
     else
      if i < 1286 then
       if i < 1284 then if i < 1283 then 112 else 26 else if i < 1285 then 26 else 37
      else
       if i < 1288 then if i < 1287 then 97 else 100 else if i < 1289 then 101 else 55
  }

  function Lookahead43(i: int): int {
    if i < 1305 then
     if i < 1297 then
      if i < 1293 then
       if i < 1291 then 196 else if i < 1292 then 196 else 196
      else
       if i < 1295 then if i < 1294 then 196 else 196 else if i < 1296 then 23 else 23
     else
      if i < 1301 then
       if i < 1299 then if i < 1298 then 55 else 26 else if i < 1300 then 26 else 7
      else
       if i < 1303 then if i < 1302 then 8 else 23 else if i < 1304 then 152 else 23
    else
     if i < 1312 then
      if i < 1308 then
       if i < 1306 then 26 else if i < 1307 then 96 else 26
      else
       if i < 1310 then if i < 1309 then 132 else 132 else if i < 1311 then 134 else 134
     else
      if i < 1316 then
       if i < 1314 then if i < 1313 then 23 else 152 else if i < 1315 then 152 else 26
      else
       if i < 1318 then if i < 1317 then 152 else 122 else if i < 1319 then 152 else 191
  }

  function Lookahead44(i: int): int {
    if i < 1335 then
     if i < 1327 then
      if i < 1323 then
       if i < 1321 then 152 else if i < 1322 then 96 else 234
      else
       if i < 1325 then if i < 1324 then 152 else 152 else if i < 1326 then 152 else 152
     else
      if i < 1331 then
       if i < 1329 then if i < 1328 then 152 else 197 else if i < 1330 then 210 else 152
      else
       if i < 1333 then if i < 1332 then 97 else 152 else if i < 1334 then 152 else 210
    else
     if i < 1342 then
      if i < 1338 then
       if i < 1336 then 233 else if i < 1337 then 210 else 198
      else
       if i < 1340 then if i < 1339 then 150 else 97 else if i < 1341 then 184 else 201
     else
      if i < 1346 then
       if i < 1344 then if i < 1343 then 239 else 214 else if i < 1345 then 214 else 201
      else
       if i < 1348 then if i < 1347 then 239 else 180 else if i < 1349 then 214 else 227
  }

  function Lookahead45(i: int): int {
    if i < 1365 then
     if i < 1357 then
      if i < 1353 then
       if i < 1351 then 200 else if i < 1352 then 198 else 155
      else
       if i < 1355 then if i < 1354 then 67 else 243 else if i < 1356 then 176 else 69
     else
      if i < 1361 then
       if i < 1359 then if i < 1358 then 175 else 175 else if i < 1360 then 175 else 122
      else
       if i < 1363 then if i < 1362 then 159 else 159 else if i < 1364 then 240 else 159
    else
     if i < 1372 then
      if i < 1368 then
       if i < 1366 then 240 else if i < 1367 then 22 else 220
      else
       if i < 1370 then if i < 1369 then 129 else 126 else if i < 1371 then 205 else 130
     else
      if i < 1376 then
       if i < 1374 then if i < 1373 then 27 else 204 else if i < 1375 then 189 else 18
      else
       if i < 1378 then if i < 1377 then 159 else 18 else if i < 1379 then 158 else 220
  }

  function Lookahead46(i: int): int {
    if i < 1395 then
     if i < 1387 then
      if i < 1383 then
       if i < 1381 then 159 else if i < 1382 then 158 else 137
      else
       if i < 1385 then if i < 1384 then 74 else 192 else if i < 1386 then 192 else 192
     else
      if i < 1391 then
       if i < 1389 then if i < 1388 then 159 else 192 else if i < 1390 then 189 else 189
      else
       if i < 1393 then if i < 1392 then 205 else 201 else if i < 1394 then 236 else 204
    else
     if i < 1402 then
      if i < 1398 then
       if i < 1396 then 235 else if i < 1397 then 159 else 22
      else
       if i < 1400 then if i < 1399 then 158 else 201 else if i < 1401 then 201 else 177
     else
      if i < 1406 then
       if i < 1404 then if i < 1403 then 107 else 159 else if i < 1405 then 177 else 158
      else
       if i < 1408 then if i < 1407 then 174 else 174 else if i < 1409 then 159 else 174
  }

  function Lookahead47(i: int): int {
    if i < 1425 then
     if i < 1417 then
      if i < 1413 then
       if i < 1411 then 76 else if i < 1412 then 182 else 158
      else
       if i < 1415 then if i < 1414 then 177 else 106 else if i < 1416 then 125 else 22
     else
      if i < 1421 then
       if i < 1419 then if i < 1418 then 107 else 53 else if i < 1420 then 137 else 216
      else
       if i < 1423 then if i < 1422 then 215 else 159 else if i < 1424 then 216 else 174
    else
     if i < 1432 then
      if i < 1428 then
       if i < 1426 then 216 else if i < 1427 then 215 else 215
      else
       if i < 1430 then if i < 1429 then 159 else 216 else if i < 1431 then 174 else 176
     else
      if i < 1436 then
       if i < 1434 then if i < 1433 then 224 else 215 else if i < 1435 then 174 else 174
      else
       if i < 1438 then if i < 1437 then 205 else 25 else if i < 1439 then 127 else 177
  }

  function Lookahead48(i: int): int {
    if i < 1455 then
     if i < 1447 then
      if i < 1443 then
       if i < 1441 then 226 else if i < 1442 then 182 else 177
      else
       if i < 1445 then if i < 1444 then 128 else 229 else if i < 1446 then 229 else 162
     else
      if i < 1451 then
       if i < 1449 then if i < 1448 then 26 else 13 else if i < 1450 then 161 else 153
      else
       if i < 1453 then if i < 1452 then 153 else 6 else if i < 1454 then 151 else 151
    else
     if i < 1462 then
      if i < 1458 then
       if i < 1456 then 151 else if i < 1457 then 151 else 165
      else
       if i < 1460 then if i < 1459 then 178 else 165 else if i < 1461 then 4 else 178
     else
      if i < 1466 then
       if i < 1464 then if i < 1463 then 3 else 22 else if i < 1465 then 165 else 142
      else
       if i < 1468 then if i < 1467 then 15 else 94 else if i < 1469 then 204 else 203
  }

  function Lookahead49(i: int): int {
    if i < 1485 then
     if i < 1477 then
      if i < 1473 then
       if i < 1471 then 202 else if i < 1472 then 201 else 23
      else
       if i < 1475 then if i < 1474 then 16 else 120 else if i < 1476 then 249 else 23
     else
      if i < 1481 then
       if i < 1479 then if i < 1478 then 131 else 111 else if i < 1480 then 249 else 20
      else
       if i < 1483 then if i < 1482 then 123 else 16 else if i < 1484 then 1 else 123
    else
     if i < 1492 then
      if i < 1488 then
       if i < 1486 then 125 else if i < 1487 then 131 else 37
      else
       if i < 1490 then if i < 1489 then 111 else 37 else if i < 1491 then 56 else 37
     else
      if i < 1496 then
       if i < 1494 then if i < 1493 then 37 else 64 else if i < 1495 then 122 else 1
      else
       if i < 1498 then if i < 1497 then 5 else 22 else if i < 1499 then 107 else 80
  }

  function Lookahead50(i: int): int {
    if i < 1515 then
     if i < 1507 then
      if i < 1503 then
       if i < 1501 then 26 else if i < 1502 then 87 else 140
      else
       if i < 1505 then if i < 1504 then 80 else 72 else if i < 1506 then 107 else 20
     else
      if i < 1511 then
       if i < 1509 then if i < 1508 then 24 else 19 else if i < 1510 then 112 else 105
      else
       if i < 1513 then if i < 1512 then 23 else 22 else if i < 1514 then 246 else 22
    else
     if i < 1522 then
      if i < 1518 then
       if i < 1516 then 79 else if i < 1517 then 79 else 22
      else
       if i < 1520 then if i < 1519 then 22 else 58 else if i < 1521 then 22 else 79
     else
      if i < 1526 then
       if i < 1524 then if i < 1523 then 23 else 23 else if i < 1525 then 23 else 116
      else
       if i < 1528 then if i < 1527 then 68 else 22 else if i < 1529 then 26 else 23
  }

  function Lookahead51(i: int): int {
    if i < 1545 then
     if i < 1537 then
      if i < 1533 then
       if i < 1531 then 22 else if i < 1532 then 64 else 122
      else
       if i < 1535 then if i < 1534 then 26 else 23 else if i < 1536 then 23 else 56
     else
      if i < 1541 then
       if i < 1539 then if i < 1538 then 22 else 11 else if i < 1540 then 124 else 26
      else
       if i < 1543 then if i < 1542 then 64 else 26 else if i < 1544 then 64 else 23
    else
     if i < 1552 then
      if i < 1548 then
       if i < 1546 then 23 else if i < 1547 then 23 else 23
      else
       if i < 1550 then if i < 1549 then 122 else 23 else if i < 1551 then 22 else 26
     else
      if i < 1556 then
       if i < 1554 then if i < 1553 then 23 else 22 else if i < 1555 then 24 else 122
      else
       if i < 1558 then if i < 1557 then 23 else 22 else if i < 1559 then 26 else 22
  }

  function Lookahead52(i: int): int {
    if i < 1565 then
     if i < 1562 then if i < 1561 then 24 else 23 else if i < 1563 then 23 else if i < 1564 then 23 else 22
    else
     if i < 1567 then if i < 1566 then 122 else 122 else if i < 1568 then 23 else if i < 1569 then 15 else 1
  }

  /** yy_lookahead: the symbol each slot belongs to. */
  function Lookahead(i: int): int {
    if i < 780 then
     if i < 390 then
      if i < 180 then
       if i < 90 then
        if i < 30 then Lookahead0(i) else if i < 60 then Lookahead1(i) else Lookahead2(i)
       else
        if i < 120 then Lookahead3(i) else if i < 150 then Lookahead4(i) else Lookahead5(i)
      else
       if i < 270 then
        if i < 210 then Lookahead6(i) else if i < 240 then Lookahead7(i) else Lookahead8(i)
       else
        if i < 330 then
         if i < 300 then Lookahead9(i) else Lookahead10(i)
        else
         if i < 360 then Lookahead11(i) else Lookahead12(i)
     else
      if i < 570 then
       if i < 480 then
        if i < 420 then Lookahead13(i) else if i < 450 then Lookahead14(i) else Lookahead15(i)
       else
        if i < 510 then Lookahead16(i) else if i < 540 then Lookahead17(i) else Lookahead18(i)
      else
       if i < 660 then
        if i < 600 then Lookahead19(i) else if i < 630 then Lookahead20(i) else Lookahead21(i)
       else
        if i < 720 then
         if i < 690 then Lookahead22(i) else Lookahead23(i)
        else
         if i < 750 then Lookahead24(i) else Lookahead25(i)
    else
     if i < 1170 then
      if i < 960 then
       if i < 870 then
        if i < 810 then Lookahead26(i) else if i < 840 then Lookahead27(i) else Lookahead28(i)
       else
        if i < 900 then Lookahead29(i) else if i < 930 then Lookahead30(i) else Lookahead31(i)
      else
       if i < 1050 then
        if i < 990 then Lookahead32(i) else if i < 1020 then Lookahead33(i) else Lookahead34(i)
       else
        if i < 1110 then
         if i < 1080 then Lookahead35(i) else Lookahead36(i)
        else
         if i < 1140 then Lookahead37(i) else Lookahead38(i)
     else
      if i < 1380 then
       if i < 1260 then
        if i < 1200 then Lookahead39(i) else if i < 1230 then Lookahead40(i) else Lookahead41(i)
       else
        if i < 1320 then
         if i < 1290 then Lookahead42(i) else Lookahead43(i)
        else
         if i < 1350 then Lookahead44(i) else Lookahead45(i)
      else
       if i < 1470 then
        if i < 1410 then Lookahead46(i) else if i < 1440 then Lookahead47(i) else Lookahead48(i)
       else
        if i < 1530 then
         if i < 1500 then Lookahead49(i) else Lookahead50(i)
        else
         if i < 1560 then Lookahead51(i) else Lookahead52(i)
  }

  function ShiftOfst0(s: int): int {
    if s < 15 then
     if s < 7 then
      if s < 3 then
       if s < 1 then 40 else if s < 2 then 599 else 904
      else
       if s < 5 then if s < 4 then 612 else 760 else if s < 6 then 760 else 760
     else
      if s < 11 then
       if s < 9 then if s < 8 then 760 else 725 else if s < 10 then -19 else 16
      else
       if s < 13 then if s < 12 then 16 else 100 else if s < 14 then 760 else 760
    else
     if s < 22 then
      if s < 18 then
       if s < 16 then 760 else if s < 17 then 760 else 760
      else
       if s < 20 then if s < 19 then 760 else 760 else if s < 21 then 876 else 876
     else
      if s < 26 then
       if s < 24 then if s < 23 then 573 else 542 else if s < 25 then 719 else 600
      else
       if s < 28 then if s < 27 then 61 else 137 else if s < 29 then 172 else 207
  }

  function ShiftOfst1(s: int): int {
    if s < 45 then
     if s < 37 then
      if s < 33 then
       if s < 31 then 242 else if s < 32 then 277 else 312
      else
       if s < 35 then if s < 34 then 347 else 382 else if s < 36 then 417 else 459
     else
      if s < 41 then
       if s < 39 then if s < 38 then 459 else 459 else if s < 40 then 459 else 459
      else
       if s < 43 then if s < 42 then 459 else 459 else if s < 44 then 459 else 459
    else
     if s < 52 then
      if s < 48 then
       if s < 46 then 459 else if s < 47 then 459 else 459
      else
       if s < 50 then if s < 49 then 459 else 459 else if s < 51 then 459 else 459
     else
      if s < 56 then
       if s < 54 then if s < 53 then 459 else 494 else if s < 55 then 459 else 529
      else
       if s < 58 then if s < 57 then 564 else 564 else if s < 59 then 705 else 760
  }

  function ShiftOfst2(s: int): int {
    if s < 75 then
     if s < 67 then
      if s < 63 then
       if s < 61 then 760 else if s < 62 then 760 else 760
      else
       if s < 65 then if s < 64 then 760 else 760 else if s < 66 then 760 else 760
     else
      if s < 71 then
       if s < 69 then if s < 68 then 760 else 760 else if s < 70 then 760 else 760
      else
       if s < 73 then if s < 72 then 760 else 760 else if s < 74 then 760 else 760
    else
     if s < 82 then
      if s < 78 then
       if s < 76 then 760 else if s < 77 then 760 else 760
      else
       if s < 80 then if s < 79 then 760 else 760 else if s < 81 then 760 else 760
     else
      if s < 86 then
       if s < 84 then if s < 83 then 760 else 760 else if s < 85 then 760 else 760
      else
       if s < 88 then if s < 87 then 760 else 760 else if s < 89 then 760 else 760
  }

  function ShiftOfst3(s: int): int {
    if s < 105 then
     if s < 97 then
      if s < 93 then
       if s < 91 then 856 else if s < 92 then 760 else 760
      else
       if s < 95 then if s < 94 then 760 else 760 else if s < 96 then 760 else 760
     else
      if s < 101 then
       if s < 99 then if s < 98 then 760 else 760 else if s < 100 then 760 else 760
      else
       if s < 103 then if s < 102 then 760 else 760 else if s < 104 then 760 else 987
    else
     if s < 112 then
      if s < 108 then
       if s < 106 then 746 else if s < 107 then 746 else 746
      else
       if s < 110 then if s < 109 then 746 else 746 else if s < 111 then 801 else 23
     else
      if s < 116 then
       if s < 114 then if s < 113 then 32 else 949 else if s < 115 then 961 else 979
      else
       if s < 118 then if s < 117 then 964 else 964 else if s < 119 then 949 else 73
  }

  function ShiftOfst4(s: int): int {
    if s < 135 then
     if s < 127 then
      if s < 123 then
       if s < 121 then 113 else if s < 122 then -51 else 1570
      else
       if s < 125 then if s < 124 then 1570 else 1570 else if s < 126 then 536 else 536
     else
      if s < 131 then
       if s < 129 then if s < 128 then 536 else 99 else if s < 130 then 99 else 813
      else
       if s < 133 then if s < 132 then 813 else 667 else if s < 134 then 205 else 240
    else
     if s < 142 then
      if s < 138 then
       if s < 136 then 949 else if s < 137 then 949 else 949
      else
       if s < 140 then if s < 139 then 949 else 949 else if s < 141 then 949 else 949
     else
      if s < 146 then
       if s < 144 then if s < 143 then 949 else 949 else if s < 145 then 949 else 949
      else
       if s < 148 then if s < 147 then 949 else 949 else if s < 149 then 949 else 949
  }

  function ShiftOfst5(s: int): int {
    if s < 165 then
     if s < 157 then
      if s < 153 then
       if s < 151 then 949 else if s < 152 then 949 else 949
      else
       if s < 155 then if s < 154 then 949 else 949 else if s < 156 then 332 else 1011
     else
      if s < 161 then
       if s < 159 then if s < 158 then 422 else 422 else if s < 160 then 113 else 30
      else
       if s < 163 then if s < 162 then 30 else 30 else if s < 164 then 30 else 30
    else
     if s < 172 then
      if s < 168 then
       if s < 166 then 30 else if s < 167 then 1570 else 1570
      else
       if s < 170 then if s < 169 then 1570 else 922 else if s < 171 then -94 else -94
     else
      if s < 176 then
       if s < 174 then if s < 173 then 384 else 613 else if s < 175 then 828 else 420
      else
       if s < 178 then if s < 177 then 765 else 804 else if s < 179 then 851 else 949
  }

  function ShiftOfst6(s: int): int {
    if s < 195 then
     if s < 187 then
      if s < 183 then
       if s < 181 then 949 else if s < 182 then 949 else 949
      else
       if s < 185 then if s < 184 then 949 else 949 else if s < 186 then 949 else 949
     else
      if s < 191 then
       if s < 189 then if s < 188 then 949 else 949 else if s < 190 then 949 else 949
      else
       if s < 193 then if s < 192 then 949 else 949 else if s < 194 then 949 else 949
    else
     if s < 202 then
      if s < 198 then
       if s < 196 then 672 else if s < 197 then 672 else 672
      else
       if s < 200 then if s < 199 then 949 else 949 else if s < 201 then 657 else 949
     else
      if s < 206 then
       if s < 204 then if s < 203 then 949 else 949 else if s < 205 then -18 else 949
      else
       if s < 208 then if s < 207 then 949 else 994 else if s < 209 then 949 else 949
  }

  function ShiftOfst7(s: int): int {
    if s < 225 then
     if s < 217 then
      if s < 213 then
       if s < 211 then 949 else if s < 212 then 949 else 949
      else
       if s < 215 then if s < 214 then 949 else 949 else if s < 216 then 949 else 949
     else
      if s < 221 then
       if s < 219 then if s < 218 then 949 else 772 else if s < 220 then 1118 else 712
      else
       if s < 223 then if s < 222 then 712 else 712 else if s < 224 then 810 else 45
    else
     if s < 232 then
      if s < 228 then
       if s < 226 then 769 else if s < 227 then 1219 else 1133
      else
       if s < 230 then if s < 229 then 418 else 418 else if s < 231 then 569 else 1133
     else
      if s < 236 then
       if s < 234 then if s < 233 then 569 else 830 else if s < 235 then 607 else 663
      else
       if s < 238 then if s < 237 then 882 else 418 else if s < 239 then 693 else 882
  }

  function ShiftOfst8(s: int): int {
    if s < 255 then
     if s < 247 then
      if s < 243 then
       if s < 241 then 882 else if s < 242 then 848 else 1152
      else
       if s < 245 then if s < 244 then 1065 else 1286 else if s < 246 then 1238 else 1238
     else
      if s < 251 then
       if s < 249 then if s < 248 then 1287 else 1287 else if s < 250 then 1238 else 1344
      else
       if s < 253 then if s < 252 then 1239 else 1243 else if s < 254 then 1345 else 1239
    else
     if s < 262 then
      if s < 258 then
       if s < 256 then 1243 else if s < 257 then 1241 else 1357
      else
       if s < 260 then if s < 259 then 1357 else 1357 else if s < 261 then 1357 else 1238
     else
      if s < 266 then
       if s < 264 then if s < 263 then 1359 else 1241 else if s < 265 then 1344 else 1345
      else
       if s < 268 then if s < 267 then 1345 else 1241 else if s < 269 then 1238 else 1359
  }

  function ShiftOfst9(s: int): int {
    if s < 285 then
     if s < 277 then
      if s < 273 then
       if s < 271 then 1245 else if s < 272 then 1309 else 1238
      else
       if s < 275 then if s < 274 then 1238 else 1359 else if s < 276 then 1375 else 1238
     else
      if s < 281 then
       if s < 279 then if s < 278 then 1359 else 1238 else if s < 280 then 1359 else 1375
      else
       if s < 283 then if s < 282 then 1295 else 1295 else if s < 284 then 1295 else 1334
    else
     if s < 292 then
      if s < 288 then
       if s < 286 then 1375 else if s < 287 then 1295 else 1308
      else
       if s < 290 then if s < 289 then 1295 else 1334 else if s < 291 then 1295 else 1295
     else
      if s < 296 then
       if s < 294 then if s < 293 then 1290 else 1310 else if s < 295 then 1290 else 1310
      else
       if s < 298 then if s < 297 then 1290 else 1310 else if s < 299 then 1290 else 1310
  }

  function ShiftOfst10(s: int): int {
    if s < 315 then
     if s < 307 then
      if s < 303 then
       if s < 301 then 1238 else if s < 302 then 1394 else 1238
      else
       if s < 305 then if s < 304 then 1282 else 1375 else if s < 306 then 1365 else 1365
     else
      if s < 311 then
       if s < 309 then if s < 308 then 1375 else 1239 else if s < 310 then 1243 else 1315
      else
       if s < 313 then if s < 312 then 1311 else 1241 else if s < 314 then 1412 else 1421
    else
     if s < 322 then
      if s < 318 then
       if s < 316 then 1435 else if s < 317 then 1435 else 1446
      else
       if s < 320 then if s < 319 then 1446 else 1446 else if s < 321 then 1446 else 1570
     else
      if s < 326 then
       if s < 324 then if s < 323 then 1570 else 1570 else if s < 325 then 1570 else 1570
      else
       if s < 328 then if s < 327 then 1570 else 1570 else if s < 329 then 1570 else 519
  }

  function ShiftOfst11(s: int): int {
    if s < 345 then
     if s < 337 then
      if s < 333 then
       if s < 331 then 978 else if s < 332 then 1210 else 1225
      else
       if s < 335 then if s < 334 then 104 else 1141 else if s < 336 then 1189 else 1246
     else
      if s < 341 then
       if s < 339 then if s < 338 then 1248 else 1251 else if s < 340 then 1252 else 1253
      else
       if s < 343 then if s < 342 then 1257 else 1258 else if s < 344 then 1273 else 1003
    else
     if s < 352 then
      if s < 348 then
       if s < 346 then 1187 else if s < 347 then 1293 else 1170
      else
       if s < 350 then if s < 349 then 1272 else 1279 else if s < 351 then 1234 else 1281
     else
      if s < 356 then
       if s < 354 then if s < 353 then 1176 else 1177 else if s < 355 then 1289 else 1242
      else
       if s < 358 then if s < 357 then 1195 else 1456 else if s < 359 then 1459 else 1441
  }

  function ShiftOfst12(s: int): int {
    if s < 375 then
     if s < 367 then
      if s < 363 then
       if s < 361 then 1323 else if s < 362 then 1451 else 1373
      else
       if s < 365 then if s < 364 then 1457 else 1449 else if s < 366 then 1453 else 1354
     else
      if s < 371 then
       if s < 369 then if s < 368 then 1346 else 1367 else if s < 370 then 1358 else 1460
      else
       if s < 373 then if s < 372 then 1360 else 1466 else if s < 374 then 1482 else 1361
    else
     if s < 382 then
      if s < 378 then
       if s < 376 then 1355 else if s < 377 then 1450 else 1452
      else
       if s < 380 then if s < 379 then 1454 else 1455 else if s < 381 then 1377 else 1434
     else
      if s < 386 then
       if s < 384 then if s < 383 then 1429 else 1372 else if s < 385 then 1494 else 1491
      else
       if s < 388 then if s < 387 then 1475 else 1391 else if s < 389 then 1362 else 1419
  }

  function ShiftOfst13(s: int): int {
    if s < 405 then
     if s < 397 then
      if s < 393 then
       if s < 391 then 1474 else if s < 392 then 1423 else 1414
      else
       if s < 395 then if s < 394 then 1432 else 1398 else if s < 396 then 1483 else 1486
     else
      if s < 401 then
       if s < 399 then if s < 398 then 1489 else 1397 else if s < 400 then 1405 else 1490
      else
       if s < 403 then if s < 402 then 1436 else 1492 else if s < 404 then 1495 else 1488
    else
     if s < 412 then
      if s < 408 then
       if s < 406 then 1496 else if s < 407 then 1437 else 1461
      else
       if s < 410 then if s < 409 then 1498 else 1442 else if s < 411 then 1458 else 1499
     else
      if s < 416 then
       if s < 414 then if s < 413 then 1500 else 1501 else if s < 415 then 1502 else 1409
      else
       if s < 418 then if s < 417 then 1505 else 1506 else if s < 419 then 1508 else 1507
  }

  function ShiftOfst14(s: int): int {
    if s < 435 then
     if s < 427 then
      if s < 423 then
       if s < 421 then 1410 else if s < 422 then 1511 else 1512
      else
       if s < 425 then if s < 424 then 1480 else 1467 else if s < 426 then 1515 else 1415
     else
      if s < 431 then
       if s < 429 then if s < 428 then 1514 else 1477 else if s < 430 then 1516 else 1479
      else
       if s < 433 then if s < 432 then 1521 else 1514 else if s < 434 then 1522 else 1523
    else
     if s < 442 then
      if s < 438 then
       if s < 436 then 1524 else if s < 437 then 1525 else 1526
      else
       if s < 440 then if s < 439 then 1528 else 1527 else if s < 441 then 1529 else 1531
     else
      if s < 446 then
       if s < 444 then if s < 443 then 1530 else 1532 else if s < 445 then 1533 else 1535
      else
       if s < 448 then if s < 447 then 1536 else 1532 else if s < 449 then 1538 else 1537
  }

  function ShiftOfst15(s: int): int {
    if s < 455 then
     if s < 452 then
      if s < 451 then 1539 else 1540
     else
      if s < 453 then 1542 else if s < 454 then 1426 else 1433
    else
     if s < 457 then
      if s < 456 then 1443 else 1444
     else
      if s < 458 then 1544 else if s < 459 then 1553 else 1568
  }

  /** yy_shift_ofst: where the terminals of a state start. */
  function ShiftOfst(s: int): int {
    if s < 240 then
     if s < 120 then
      if s < 60 then
       if s < 30 then ShiftOfst0(s) else ShiftOfst1(s)
      else
       if s < 90 then ShiftOfst2(s) else ShiftOfst3(s)
     else
      if s < 180 then
       if s < 150 then ShiftOfst4(s) else ShiftOfst5(s)
      else
       if s < 210 then ShiftOfst6(s) else ShiftOfst7(s)
    else
     if s < 360 then
      if s < 300 then
       if s < 270 then ShiftOfst8(s) else ShiftOfst9(s)
      else
       if s < 330 then ShiftOfst10(s) else ShiftOfst11(s)
     else
      if s < 420 then
       if s < 390 then ShiftOfst12(s) else ShiftOfst13(s)
      else
       if s < 450 then ShiftOfst14(s) else ShiftOfst15(s)
  }

  function ReduceOfst0(s: int): int {
    if s < 15 then
     if s < 7 then
      if s < 3 then
       if s < 1 then -29 else if s < 2 then 566 else 525
      else
       if s < 5 then if s < 4 then 605 else -49 else if s < 6 then 307 else 491
     else
      if s < 11 then
       if s < 9 then if s < 8 then 533 else 668 else if s < 10 then 435 else 601
      else
       if s < 13 then if s < 12 then 644 else 148 else if s < 14 then 747 else 786
    else
     if s < 22 then
      if s < 18 then
       if s < 16 then 795 else if s < 17 then 419 else 788
      else
       if s < 20 then if s < 19 then 827 else 790 else if s < 21 then 454 else 832
     else
      if s < 26 then
       if s < 24 then if s < 23 then 889 else 495 else if s < 25 then 824 else 734
      else
       if s < 28 then if s < 27 then 76 else 76 else if s < 29 then 76 else 76
  }

  function ReduceOfst1(s: int): int {
    if s < 45 then
     if s < 37 then
      if s < 33 then
       if s < 31 then 76 else if s < 32 then 76 else 76
      else
       if s < 35 then if s < 34 then 76 else 76 else if s < 36 then 76 else 76
     else
      if s < 41 then
       if s < 39 then if s < 38 then 76 else 76 else if s < 40 then 76 else 76
      else
       if s < 43 then if s < 42 then 76 else 76 else if s < 44 then 76 else 76
    else
     if s < 52 then
      if s < 48 then
       if s < 46 then 76 else if s < 47 then 76 else 76
      else
       if s < 50 then if s < 49 then 76 else 76 else if s < 51 then 76 else 76
     else
      if s < 56 then
       if s < 54 then if s < 53 then 76 else 76 else if s < 55 then 76 else 76
      else
       if s < 58 then if s < 57 then 76 else 76 else if s < 59 then 783 else 898
  }

  function ReduceOfst2(s: int): int {
    if s < 75 then
     if s < 67 then
      if s < 63 then
       if s < 61 then 905 else if s < 62 then 907 else 911
      else
       if s < 65 then if s < 64 then 921 else 933 else if s < 66 then 936 else 940
     else
      if s < 71 then
       if s < 69 then if s < 68 then 943 else 947 else if s < 70 then 950 else 952
      else
       if s < 73 then if s < 72 then 955 else 958 else if s < 74 then 962 else 965
    else
     if s < 82 then
      if s < 78 then
       if s < 76 then 969 else if s < 77 then 974 else 977
      else
       if s < 80 then if s < 79 then 980 else 984 else if s < 81 then 988 else 991
     else
      if s < 86 then
       if s < 84 then if s < 83 then 993 else 996 else if s < 85 then 999 else 1002
      else
       if s < 88 then if s < 87 then 1006 else 1010 else if s < 89 then 1018 else 1021
  }

  function ReduceOfst3(s: int): int {
    if s < 105 then
     if s < 97 then
      if s < 93 then
       if s < 91 then 1024 else if s < 92 then 1028 else 1032
      else
       if s < 95 then if s < 94 then 1034 else 1036 else if s < 96 then 1040 else 1046
     else
      if s < 101 then
       if s < 99 then if s < 98 then 1051 else 1058 else if s < 100 then 1062 else 1064
      else
       if s < 103 then if s < 102 then 1068 else 1070 else if s < 104 then 1073 else 76
    else
     if s < 112 then
      if s < 108 then
       if s < 106 then 76 else if s < 107 then 76 else 76
      else
       if s < 110 then if s < 109 then 76 else 76 else if s < 111 then 76 else 76
     else
      if s < 116 then
       if s < 114 then if s < 113 then 76 else 855 else if s < 115 then 36 else 523
      else
       if s < 118 then if s < 117 then 235 else 416 else if s < 119 then 777 else 76
  }

  function ReduceOfst4(s: int): int {
    if s < 135 then
     if s < 127 then
      if s < 123 then
       if s < 121 then 278 else if s < 122 then 76 else 76
      else
       if s < 125 then if s < 124 then 76 else 76 else if s < 126 then 700 else 700
     else
      if s < 131 then
       if s < 129 then if s < 128 then 700 else 150 else if s < 130 then 220 else 147
      else
       if s < 133 then if s < 132 then 217 else 221 else if s < 134 then 306 else 306
    else
     if s < 142 then
      if s < 138 then
       if s < 136 then 611 else if s < 137 then 5 else 535
      else
       if s < 140 then if s < 139 then 556 else 620 else if s < 141 then 720 else 872
     else
      if s < 146 then
       if s < 144 then if s < 143 then 897 else 116 else if s < 145 then 864 else 349
      else
       if s < 148 then if s < 147 then 1035 else 1037 else if s < 149 then 404 else 1047
  }

  function ReduceOfst5(s: int): int {
    if s < 165 then
     if s < 157 then
      if s < 153 then
       if s < 151 then 992 else if s < 152 then -129 else 1050
      else
       if s < 155 then if s < 154 then 492 else 62 else if s < 156 then 722 else 879
     else
      if s < 161 then
       if s < 159 then if s < 158 then 1072 else 1089 else if s < 160 then 808 else 1066
      else
       if s < 163 then if s < 162 then 1094 else 1095 else if s < 164 then 1096 else 1097
    else
     if s < 172 then
      if s < 168 then
       if s < 166 then 1098 else if s < 167 then 776 else 1054
      else
       if s < 170 then if s < 169 then 557 else 57 else if s < 171 then 112 else 131
     else
      if s < 176 then
       if s < 174 then if s < 173 then 167 else 182 else if s < 175 then 250 else 272
      else
       if s < 178 then if s < 177 then 291 else 331 else if s < 179 then 364 else 438
  }

  function ReduceOfst6(s: int): int {
    if s < 195 then
     if s < 187 then
      if s < 183 then
       if s < 181 then 497 else if s < 182 then 517 else 591
      else
       if s < 185 then if s < 184 then 653 else 690 else if s < 186 then 739 else 775
     else
      if s < 191 then
       if s < 189 then if s < 188 then 798 else 892 else if s < 190 then 908 else 924
      else
       if s < 193 then if s < 192 then 930 else 1015 else if s < 194 then 1063 else 1069
    else
     if s < 202 then
      if s < 198 then
       if s < 196 then 355 else if s < 197 then 784 else 799
      else
       if s < 200 then if s < 199 then 981 else 1101 else if s < 201 then 926 else 1151
     else
      if s < 206 then
       if s < 204 then if s < 203 then 1161 else 1162 else if s < 205 then 945 else 1164
      else
       if s < 208 then if s < 207 then 1166 else 1128 else if s < 209 then 1168 else 1171
  }

  function ReduceOfst7(s: int): int {
    if s < 225 then
     if s < 217 then
      if s < 213 then
       if s < 211 then 1172 else if s < 212 then 250 else 1173
      else
       if s < 215 then if s < 214 then 1174 else 1175 else if s < 216 then 1178 else 1180
     else
      if s < 221 then
       if s < 219 then if s < 218 then 1181 else 1088 else if s < 220 then 1102 else 1119
      else
       if s < 223 then if s < 222 then 1124 else 1126 else if s < 224 then 926 else 1131
    else
     if s < 232 then
      if s < 228 then
       if s < 226 then 1139 else if s < 227 then 1188 else 1140
      else
       if s < 230 then if s < 229 then 1129 else 1130 else if s < 231 then 1103 else 1144
     else
      if s < 236 then
       if s < 234 then if s < 233 then 1107 else 1179 else if s < 235 then 1156 else 1167
      else
       if s < 238 then if s < 237 then 1182 else 1134 else if s < 239 then 1122 else 1183
  }

  function ReduceOfst8(s: int): int {
    if s < 255 then
     if s < 247 then
      if s < 243 then
       if s < 241 then 1184 else if s < 242 then 1150 else 1153
      else
       if s < 245 then if s < 244 then 1197 else 1111 else if s < 246 then 1202 else 1203
     else
      if s < 251 then
       if s < 249 then if s < 248 then 1123 else 1125 else if s < 250 then 1205 else 1147
      else
       if s < 253 then if s < 252 then 1165 else 1169 else if s < 254 then 1185 else 1186
    else
     if s < 262 then
      if s < 258 then
       if s < 256 then 1190 else if s < 257 then 1191 else 1192
      else
       if s < 260 then if s < 259 then 1193 else 1194 else if s < 261 then 1196 else 1217
     else
      if s < 266 then
       if s < 264 then if s < 263 then 1220 else 1198 else if s < 265 then 1159 else 1200
      else
       if s < 268 then if s < 267 then 1201 else 1199 else if s < 269 then 1221 else 1223
  }

  function ReduceOfst9(s: int): int {
    if s < 285 then
     if s < 277 then
      if s < 273 then
       if s < 271 then 1157 else if s < 272 then 1160 else 1228
      else
       if s < 275 then if s < 274 then 1237 else 1240 else if s < 276 then 1224 else 1244
     else
      if s < 281 then
       if s < 279 then if s < 278 then 1247 else 1249 else if s < 280 then 1254 else 1227
      else
       if s < 283 then if s < 282 then 1232 else 1233 else if s < 284 then 1235 else 1229
    else
     if s < 292 then
      if s < 288 then
       if s < 286 then 1236 else if s < 287 then 1250 else 1255
      else
       if s < 290 then if s < 289 then 1256 else 1259 else if s < 291 then 1260 else 1261
     else
      if s < 296 then
       if s < 294 then if s < 293 then 1204 else 1206 else if s < 295 then 1207 else 1211
      else
       if s < 298 then if s < 297 then 1209 else 1212 else if s < 299 then 1213 else 1218
  }

  function ReduceOfst10(s: int): int {
    if s < 314 then
     if s < 307 then
      if s < 303 then
       if s < 301 then 1263 else if s < 302 then 1208 else 1269
      else
       if s < 305 then if s < 304 then 1214 else 1262 else if s < 306 then 1215 else 1216
     else
      if s < 310 then
       if s < 308 then 1265 else if s < 309 then 1231 else 1264
      else
       if s < 312 then if s < 311 then 1266 else 1268 else if s < 313 then 1270 else 1284
    else
     if s < 321 then
      if s < 317 then
       if s < 315 then 1288 else if s < 316 then 1297 else 1298
      else
       if s < 319 then if s < 318 then 1302 else 1303 else if s < 320 then 1304 else 1305
     else
      if s < 325 then
       if s < 323 then if s < 322 then 1226 else 1230 else if s < 324 then 1267 else 1292
      else
       if s < 327 then if s < 326 then 1294 else 1280 else if s < 328 then 1283 else 1299
  }

  /** yy_reduce_ofst: where the nonterminals of a state start. */
  function ReduceOfst(s: int): int {
    if s < 150 then
     if s < 60 then
      if s < 30 then ReduceOfst0(s) else ReduceOfst1(s)
     else
      if s < 90 then ReduceOfst2(s) else if s < 120 then ReduceOfst3(s) else ReduceOfst4(s)
    else
     if s < 240 then
      if s < 180 then ReduceOfst5(s) else if s < 210 then ReduceOfst6(s) else ReduceOfst7(s)
     else
      if s < 270 then ReduceOfst8(s) else if s < 300 then ReduceOfst9(s) else ReduceOfst10(s)
  }

  function Default0(s: int): int {
    if s < 15 then
     if s < 7 then
      if s < 3 then
       if s < 1 then 1285 else if s < 2 then 1275 else 1275
      else
       if s < 5 then if s < 4 then 1275 else 1207 else if s < 6 then 1207 else 1207
     else
      if s < 11 then
       if s < 9 then if s < 8 then 1207 else 1275 else if s < 10 then 1100 else 1129
      else
       if s < 13 then if s < 12 then 1129 else 1259 else if s < 14 then 1336 else 1336
    else
     if s < 22 then
      if s < 18 then
       if s < 16 then 1336 else if s < 17 then 1336 else 1336
      else
       if s < 20 then if s < 19 then 1336 else 1206 else if s < 21 then 1336 else 1336
     else
      if s < 26 then
       if s < 24 then if s < 23 then 1336 else 1336 else if s < 25 then 1275 else 1104
      else
       if s < 28 then if s < 27 then 1135 else 1336 else if s < 29 then 1336 else 1336
  }

  function Default1(s: int): int {
    if s < 45 then
     if s < 37 then
      if s < 33 then
       if s < 31 then 1336 else if s < 32 then 1208 else 1209
      else
       if s < 35 then if s < 34 then 1336 else 1336 else if s < 36 then 1336 else 1258
     else
      if s < 41 then
       if s < 39 then if s < 38 then 1260 else 1145 else if s < 40 then 1144 else 1143
      else
       if s < 43 then if s < 42 then 1142 else 1241 else if s < 44 then 1116 else 1140
    else
     if s < 52 then
      if s < 48 then
       if s < 46 then 1133 else if s < 47 then 1137 else 1208
      else
       if s < 50 then if s < 49 then 1202 else 1203 else if s < 51 then 1201 else 1205
     else
      if s < 56 then
       if s < 54 then if s < 53 then 1209 else 1336 else if s < 55 then 1136 else 1171
      else
       if s < 58 then if s < 57 then 1186 else 1170 else if s < 59 then 1336 else 1336
  }

  function Default2(s: int): int {
    if s < 75 then
     if s < 67 then
      if s < 63 then
       if s < 61 then 1336 else if s < 62 then 1336 else 1336
      else
       if s < 65 then if s < 64 then 1336 else 1336 else if s < 66 then 1336 else 1336
     else
      if s < 71 then
       if s < 69 then if s < 68 then 1336 else 1336 else if s < 70 then 1336 else 1336
      else
       if s < 73 then if s < 72 then 1336 else 1336 else if s < 74 then 1336 else 1336
    else
     if s < 82 then
      if s < 78 then
       if s < 76 then 1336 else if s < 77 then 1336 else 1336
      else
       if s < 80 then if s < 79 then 1336 else 1336 else if s < 81 then 1336 else 1336
     else
      if s < 86 then
       if s < 84 then if s < 83 then 1336 else 1336 else if s < 85 then 1336 else 1336
      else
       if s < 88 then if s < 87 then 1336 else 1336 else if s < 89 then 1336 else 1336
  }

  function Default3(s: int): int {
    if s < 105 then
     if s < 97 then
      if s < 93 then
       if s < 91 then 1336 else if s < 92 then 1336 else 1336
      else
       if s < 95 then if s < 94 then 1336 else 1336 else if s < 96 then 1336 else 1336
     else
      if s < 101 then
       if s < 99 then if s < 98 then 1336 else 1336 else if s < 100 then 1336 else 1336
      else
       if s < 103 then if s < 102 then 1336 else 1336 else if s < 104 then 1336 else 1180
    else
     if s < 112 then
      if s < 108 then
       if s < 106 then 1185 else if s < 107 then 1192 else 1184
      else
       if s < 110 then if s < 109 then 1181 else 1173 else if s < 111 then 1172 else 1174
     else
      if s < 116 then
       if s < 114 then if s < 113 then 1175 else 1336 else if s < 115 then 1023 else 1071
      else
       if s < 118 then if s < 117 then 1336 else 1336 else if s < 119 then 1336 else 1176
  }

  function Default4(s: int): int {
    if s < 135 then
     if s < 127 then
      if s < 123 then
       if s < 121 then 1336 else if s < 122 then 1177 else 1189
      else
       if s < 125 then if s < 124 then 1188 else 1187 else if s < 126 then 1266 else 1293
     else
      if s < 131 then
       if s < 129 then if s < 128 then 1292 else 1336 else if s < 130 then 1336 else 1336
      else
       if s < 133 then if s < 132 then 1336 else 1336 else if s < 134 then 1336 else 1336
    else
     if s < 142 then
      if s < 138 then
       if s < 136 then 1336 else if s < 137 then 1336 else 1336
      else
       if s < 140 then if s < 139 then 1336 else 1336 else if s < 141 then 1336 else 1336
     else
      if s < 146 then
       if s < 144 then if s < 143 then 1336 else 1336 else if s < 145 then 1336 else 1336
      else
       if s < 148 then if s < 147 then 1336 else 1336 else if s < 149 then 1336 else 1336
  }

  function Default5(s: int): int {
    if s < 165 then
     if s < 157 then
      if s < 153 then
       if s < 151 then 1336 else if s < 152 then 1336 else 1336
      else
       if s < 155 then if s < 154 then 1336 else 1336 else if s < 156 then 1285 else 1275
     else
      if s < 161 then
       if s < 159 then if s < 158 then 1029 else 1029 else if s < 160 then 1336 else 1275
      else
       if s < 163 then if s < 162 then 1275 else 1275 else if s < 164 then 1275 else 1275
    else
     if s < 172 then
      if s < 168 then
       if s < 166 then 1275 else if s < 167 then 1271 else 1104
      else
       if s < 170 then if s < 169 then 1095 else 1336 else if s < 171 then 1336 else 1336
     else
      if s < 176 then
       if s < 174 then if s < 173 then 1336 else 1336 else if s < 175 then 1336 else 1336
      else
       if s < 178 then if s < 177 then 1336 else 1336 else if s < 179 then 1336 else 1336
  }

  function Default6(s: int): int {
    if s < 195 then
     if s < 187 then
      if s < 183 then
       if s < 181 then 1263 else if s < 182 then 1261 else 1336
      else
       if s < 185 then if s < 184 then 1222 else 1336 else if s < 186 then 1336 else 1336
     else
      if s < 191 then
       if s < 189 then if s < 188 then 1336 else 1336 else if s < 190 then 1336 else 1336
      else
       if s < 193 then if s < 192 then 1336 else 1336 else if s < 194 then 1336 else 1336
    else
     if s < 202 then
      if s < 198 then
       if s < 196 then 1336 else if s < 197 then 1336 else 1336
      else
       if s < 200 then if s < 199 then 1336 else 1336 else if s < 201 then 1336 else 1336
     else
      if s < 206 then
       if s < 204 then if s < 203 then 1336 else 1336 else if s < 205 then 1100 else 1336
      else
       if s < 208 then if s < 207 then 1336 else 1336 else if s < 209 then 1336 else 1336
  }

  function Default7(s: int): int {
    if s < 225 then
     if s < 217 then
      if s < 213 then
       if s < 211 then 1336 else if s < 212 then 1336 else 1336
      else
       if s < 215 then if s < 214 then 1336 else 1336 else if s < 216 then 1336 else 1336
     else
      if s < 221 then
       if s < 219 then if s < 218 then 1287 else 1336 else if s < 220 then 1236 else 1100
      else
       if s < 223 then if s < 222 then 1100 else 1100 else if s < 224 then 1102 else 1084
    else
     if s < 232 then
      if s < 228 then
       if s < 226 then 1094 else if s < 227 then 1008 else 1139
      else
       if s < 230 then if s < 229 then 1118 else 1118 else if s < 231 then 1325 else 1139
     else
      if s < 236 then
       if s < 234 then if s < 233 then 1325 else 1046 else if s < 235 then 1307 else 1043
      else
       if s < 238 then if s < 237 then 1129 else 1118 else if s < 239 then 1204 else 1129
  }

  function Default8(s: int): int {
    if s < 255 then
     if s < 247 then
      if s < 243 then
       if s < 241 then 1129 else if s < 242 then 1101 else 1094
      else
       if s < 245 then if s < 244 then 1336 else 1328 else if s < 246 then 1109 else 1109
     else
      if s < 251 then
       if s < 249 then if s < 248 then 1327 else 1327 else if s < 250 then 1109 else 1150
      else
       if s < 253 then if s < 252 then 1134 else 1123 else if s < 254 then 1074 else 1134
    else
     if s < 262 then
      if s < 258 then
       if s < 256 then 1123 else if s < 257 then 1139 else 1080
      else
       if s < 260 then if s < 259 then 1080 else 1080 else if s < 261 then 1080 else 1109
     else
      if s < 266 then
       if s < 264 then if s < 263 then 1020 else 1139 else if s < 265 then 1150 else 1074
      else
       if s < 268 then if s < 267 then 1074 else 1139 else if s < 269 then 1109 else 1020
  }

  function Default9(s: int): int {
    if s < 285 then
     if s < 277 then
      if s < 273 then
       if s < 271 then 1240 else if s < 272 then 1322 else 1109
      else
       if s < 275 then if s < 274 then 1109 else 1020 else if s < 276 then 1215 else 1109
     else
      if s < 281 then
       if s < 279 then if s < 278 then 1020 else 1109 else if s < 280 then 1020 else 1215
      else
       if s < 283 then if s < 282 then 1072 else 1072 else if s < 284 then 1072 else 1061
    else
     if s < 292 then
      if s < 288 then
       if s < 286 then 1215 else if s < 287 then 1072 else 1046
      else
       if s < 290 then if s < 289 then 1072 else 1061 else if s < 291 then 1072 else 1072
     else
      if s < 296 then
       if s < 294 then if s < 293 then 1122 else 1117 else if s < 295 then 1122 else 1117
      else
       if s < 298 then if s < 297 then 1122 else 1117 else if s < 299 then 1122 else 1117
  }

  function Default10(s: int): int {
    if s < 315 then
     if s < 307 then
      if s < 303 then
       if s < 301 then 1109 else if s < 302 then 1210 else 1109
      else
       if s < 305 then if s < 304 then 1336 else 1215 else if s < 306 then 1219 else 1219
     else
      if s < 311 then
       if s < 309 then if s < 308 then 1215 else 1134 else if s < 310 then 1123 else 1132
      else
       if s < 313 then if s < 312 then 1130 else 1139 else if s < 314 then 1026 else 1064
    else
     if s < 322 then
      if s < 318 then
       if s < 316 then 1290 else if s < 317 then 1290 else 1286
      else
       if s < 320 then if s < 319 then 1286 else 1286 else if s < 321 then 1286 else 1333
     else
      if s < 326 then
       if s < 324 then if s < 323 then 1333 else 1271 else if s < 325 then 1302 else 1302
      else
       if s < 328 then if s < 327 then 1048 else 1048 else if s < 329 then 1302 else 1336
  }

  function Default11(s: int): int {
    if s < 345 then
     if s < 337 then
      if s < 333 then
       if s < 331 then 1336 else if s < 332 then 1336 else 1336
      else
       if s < 335 then if s < 334 then 1336 else 1336 else if s < 336 then 1297 else 1336
     else
      if s < 341 then
       if s < 339 then if s < 338 then 1224 else 1336 else if s < 340 then 1336 else 1336
      else
       if s < 343 then if s < 342 then 1336 else 1336 else if s < 344 then 1336 else 1336
    else
     if s < 352 then
      if s < 348 then
       if s < 346 then 1336 else if s < 347 then 1336 else 1336
      else
       if s < 350 then if s < 349 then 1336 else 1336 else if s < 351 then 1336 else 1336
     else
      if s < 356 then
       if s < 354 then if s < 353 then 1336 else 1336 else if s < 355 then 1336 else 1336
      else
       if s < 358 then if s < 357 then 1156 else 1336 else if s < 359 then 1004 else 1268
  }

  function Default12(s: int): int {
    if s < 375 then
     if s < 367 then
      if s < 363 then
       if s < 361 then 1336 else if s < 362 then 1336 else 1267
      else
       if s < 365 then if s < 364 then 1336 else 1336 else if s < 366 then 1336 else 1336
     else
      if s < 371 then
       if s < 369 then if s < 368 then 1336 else 1336 else if s < 370 then 1336 else 1336
      else
       if s < 373 then if s < 372 then 1336 else 1336 else if s < 374 then 1336 else 1336
    else
     if s < 382 then
      if s < 378 then
       if s < 376 then 1336 else if s < 377 then 1336 else 1336
      else
       if s < 380 then if s < 379 then 1336 else 1336 else if s < 381 then 1336 else 1336
     else
      if s < 386 then
       if s < 384 then if s < 383 then 1336 else 1324 else if s < 385 then 1336 else 1336
      else
       if s < 388 then if s < 387 then 1336 else 1336 else if s < 389 then 1336 else 1336
  }

  function Default13(s: int): int {
    if s < 405 then
     if s < 397 then
      if s < 393 then
       if s < 391 then 1239 else if s < 392 then 1238 else 1336
      else
       if s < 395 then if s < 394 then 1336 else 1336 else if s < 396 then 1336 else 1336
     else
      if s < 401 then
       if s < 399 then if s < 398 then 1336 else 1336 else if s < 400 then 1336 else 1336
      else
       if s < 403 then if s < 402 then 1336 else 1336 else if s < 404 then 1336 else 1336
    else
     if s < 412 then
      if s < 408 then
       if s < 406 then 1336 else if s < 407 then 1336 else 1336
      else
       if s < 410 then if s < 409 then 1336 else 1336 else if s < 411 then 1336 else 1336
     else
      if s < 416 then
       if s < 414 then if s < 413 then 1336 else 1336 else if s < 415 then 1336 else 1086
      else
       if s < 418 then if s < 417 then 1336 else 1336 else if s < 419 then 1336 else 1311
  }

  function Default14(s: int): int {
    if s < 435 then
     if s < 427 then
      if s < 423 then
       if s < 421 then 1336 else if s < 422 then 1336 else 1336
      else
       if s < 425 then if s < 424 then 1336 else 1336 else if s < 426 then 1336 else 1336
     else
      if s < 431 then
       if s < 429 then if s < 428 then 1131 else 1336 else if s < 430 then 1124 else 1336
      else
       if s < 433 then if s < 432 then 1336 else 1315 else if s < 434 then 1336 else 1336
    else
     if s < 442 then
      if s < 438 then
       if s < 436 then 1336 else if s < 437 then 1336 else 1336
      else
       if s < 440 then if s < 439 then 1336 else 1336 else if s < 441 then 1336 else 1336
     else
      if s < 446 then
       if s < 444 then if s < 443 then 1336 else 1277 else if s < 445 then 1336 else 1336
      else
       if s < 448 then if s < 447 then 1336 else 1276 else if s < 449 then 1336 else 1336
  }

  function Default15(s: int): int {
    if s < 455 then
     if s < 452 then
      if s < 451 then 1336 else 1336
     else
      if s < 453 then 1336 else if s < 454 then 1158 else 1336
    else
     if s < 457 then
      if s < 456 then 1157 else 1161
     else
      if s < 458 then 1336 else if s < 459 then 1014 else 1336
  }

  /** yy_default: what to do when no slot matches. */
  function Default(s: int): int {
    if s < 240 then
     if s < 120 then
      if s < 60 then
       if s < 30 then Default0(s) else Default1(s)
      else
       if s < 90 then Default2(s) else Default3(s)
     else
      if s < 180 then
       if s < 150 then Default4(s) else Default5(s)
      else
       if s < 210 then Default6(s) else Default7(s)
    else
     if s < 360 then
      if s < 300 then
       if s < 270 then Default8(s) else Default9(s)
      else
       if s < 330 then Default10(s) else Default11(s)
     else
      if s < 420 then
       if s < 390 then Default12(s) else Default13(s)
      else
       if s < 450 then Default14(s) else Default15(s)
  }

  /** yyFallback: the terminal to retry with. */
  function Fallback(x: int): int {
    if x < 19 then
     if x < 10 then
      if x < 6 then if x < 2 then 0 else 55 else if x < 7 then 0 else 55
     else
      if x < 15 then if x < 11 then 0 else 55 else if x < 18 then 0 else 55
    else
     if x < 26 then
      if x < 22 then if x < 21 then 0 else 55 else if x < 25 then 0 else 55
     else
      if x < 32 then if x < 30 then 0 else 55 else if x < 57 then 0 else 55
  }

  function Lhs0(r: int): int {
    if r < 15 then
     if r < 7 then
      if r < 3 then
       if r < 1 then 147 else if r < 2 then 147 else 148
      else
       if r < 5 then if r < 4 then 149 else 150 else if r < 6 then 150 else 150
     else
      if r < 11 then
       if r < 9 then if r < 8 then 150 else 149 else if r < 10 then 149 else 149
      else
       if r < 13 then if r < 12 then 149 else 149 else if r < 14 then 149 else 154
    else
     if r < 22 then
      if r < 18 then
       if r < 16 then 156 else if r < 17 then 158 else 158
      else
       if r < 20 then if r < 19 then 157 else 157 else if r < 21 then 155 else 155
     else
      if r < 26 then
       if r < 24 then if r < 23 then 162 else 162 else if r < 25 then 164 else 166
      else
       if r < 28 then if r < 27 then 166 else 166 else if r < 29 then 167 else 171
  }

  function Lhs1(r: int): int {
    if r < 45 then
     if r < 37 then
      if r < 33 then
       if r < 31 then 171 else if r < 32 then 171 else 171
      else
       if r < 35 then if r < 34 then 171 else 171 else if r < 36 then 171 else 171
     else
      if r < 41 then
       if r < 39 then if r < 38 then 171 else 171 else if r < 40 then 171 else 171
      else
       if r < 43 then if r < 42 then 171 else 176 else if r < 44 then 176 else 178
    else
     if r < 52 then
      if r < 48 then
       if r < 46 then 178 else if r < 47 then 180 else 180
      else
       if r < 50 then if r < 49 then 180 else 180 else if r < 51 then 181 else 181
     else
      if r < 56 then
       if r < 54 then if r < 53 then 181 else 181 else if r < 55 then 181 else 179
      else
       if r < 58 then if r < 57 then 179 else 182 else if r < 59 then 182 else 182
  }

  function Lhs2(r: int): int {
    if r < 75 then
     if r < 67 then
      if r < 63 then
       if r < 61 then 161 else if r < 62 then 184 else 185
      else
       if r < 65 then if r < 64 then 185 else 185 else if r < 66 then 185 else 185
     else
      if r < 71 then
       if r < 69 then if r < 68 then 188 else 174 else if r < 70 then 174 else 189
      else
       if r < 73 then if r < 72 then 189 else 190 else if r < 74 then 190 else 149
    else
     if r < 82 then
      if r < 78 then
       if r < 76 then 192 else if r < 77 then 192 else 149
      else
       if r < 80 then if r < 79 then 149 else 149 else if r < 81 then 163 else 194
     else
      if r < 86 then
       if r < 84 then if r < 83 then 197 else 197 else if r < 85 then 197 else 195
      else
       if r < 88 then if r < 87 then 206 else 206 else if r < 89 then 198 else 198
  }

  function Lhs3(r: int): int {
    if r < 105 then
     if r < 97 then
      if r < 93 then
       if r < 91 then 198 else if r < 92 then 209 else 199
      else
       if r < 95 then if r < 94 then 199 else 199 else if r < 96 then 210 else 210
     else
      if r < 101 then
       if r < 99 then if r < 98 then 200 else 200 else if r < 100 then 212 else 212
      else
       if r < 103 then if r < 102 then 211 else 211 else if r < 104 then 211 else 211
    else
     if r < 112 then
      if r < 108 then
       if r < 106 then 159 else if r < 107 then 159 else 193
      else
       if r < 110 then if r < 109 then 213 else 213 else if r < 111 then 213 else 213
     else
      if r < 116 then
       if r < 114 then if r < 113 then 215 else 215 else if r < 115 then 214 else 214
      else
       if r < 118 then if r < 117 then 214 else 216 else if r < 119 then 216 else 204
  }

  function Lhs4(r: int): int {
    if r < 135 then
     if r < 127 then
      if r < 123 then
       if r < 121 then 204 else if r < 122 then 186 else 186
      else
       if r < 125 then if r < 124 then 175 else 175 else if r < 126 then 175 else 202
     else
      if r < 131 then
       if r < 129 then if r < 128 then 202 else 203 else if r < 130 then 203 else 205
      else
       if r < 133 then if r < 132 then 205 else 205 else if r < 134 then 205 else 149
    else
     if r < 142 then
      if r < 138 then
       if r < 136 then 201 else if r < 137 then 201 else 149
      else
       if r < 140 then if r < 139 then 218 else 218 else if r < 141 then 218 else 218
     else
      if r < 146 then
       if r < 144 then if r < 143 then 149 else 149 else if r < 145 then 219 else 219
      else
       if r < 148 then if r < 147 then 220 else 220 else if r < 149 then 217 else 217
  }

  function Lhs5(r: int): int {
    if r < 165 then
     if r < 157 then
      if r < 153 then
       if r < 151 then 173 else if r < 152 then 172 else 173
      else
       if r < 155 then if r < 154 then 173 else 173 else if r < 156 then 173 else 172
     else
      if r < 161 then
       if r < 159 then if r < 158 then 172 else 172 else if r < 160 then 173 else 173
      else
       if r < 163 then if r < 162 then 173 else 173 else if r < 164 then 173 else 172
    else
     if r < 172 then
      if r < 168 then
       if r < 166 then 173 else if r < 167 then 173 else 173
      else
       if r < 170 then if r < 169 then 173 else 173 else if r < 171 then 173 else 173
     else
      if r < 176 then
       if r < 174 then if r < 173 then 173 else 173 else if r < 175 then 221 else 221
      else
       if r < 178 then if r < 177 then 173 else 173 else if r < 179 then 173 else 173
  }

  function Lhs6(r: int): int {
    if r < 195 then
     if r < 187 then
      if r < 183 then
       if r < 181 then 173 else if r < 182 then 173 else 173
      else
       if r < 185 then if r < 184 then 173 else 173 else if r < 186 then 173 else 222
     else
      if r < 191 then
       if r < 189 then if r < 188 then 222 else 173 else if r < 190 then 223 else 223
      else
       if r < 193 then if r < 192 then 173 else 173 else if r < 194 then 173 else 173
    else
     if r < 202 then
      if r < 198 then
       if r < 196 then 173 else if r < 197 then 173 else 226
      else
       if r < 200 then if r < 199 then 226 else 227 else if r < 201 then 227 else 225
     else
      if r < 206 then
       if r < 204 then if r < 203 then 225 else 208 else if r < 205 then 207 else 207
      else
       if r < 208 then if r < 207 then 224 else 224 else if r < 209 then 149 else 228
  }

  function Lhs7(r: int): int {
    if r < 225 then
     if r < 217 then
      if r < 213 then
       if r < 211 then 228 else if r < 212 then 177 else 177
      else
       if r < 215 then if r < 214 then 187 else 187 else if r < 216 then 229 else 229
     else
      if r < 221 then
       if r < 219 then if r < 218 then 149 else 149 else if r < 220 then 149 else 149
      else
       if r < 223 then if r < 222 then 149 else 149 else if r < 224 then 149 else 149
    else
     if r < 232 then
      if r < 228 then
       if r < 226 then 169 else if r < 227 then 170 else 149
      else
       if r < 230 then if r < 229 then 231 else 233 else if r < 231 then 233 else 233
     else
      if r < 236 then
       if r < 234 then if r < 233 then 233 else 234 else if r < 235 then 234 else 234
      else
       if r < 238 then if r < 237 then 236 else 236 else if r < 239 then 232 else 232
  }

  function Lhs8(r: int): int {
    if r < 255 then
     if r < 247 then
      if r < 243 then
       if r < 241 then 238 else if r < 242 then 239 else 239
      else
       if r < 245 then if r < 244 then 237 else 237 else if r < 246 then 237 else 237
     else
      if r < 251 then
       if r < 249 then if r < 248 then 173 else 173 else if r < 250 then 191 else 191
      else
       if r < 253 then if r < 252 then 191 else 149 else if r < 254 then 149 else 149
    else
     if r < 262 then
      if r < 258 then
       if r < 256 then 241 else if r < 257 then 241 else 149
      else
       if r < 260 then if r < 259 then 149 else 149 else if r < 261 then 149 else 149
     else
      if r < 266 then
       if r < 264 then if r < 263 then 149 else 242 else if r < 265 then 149 else 149
      else
       if r < 268 then if r < 267 then 244 else 246 else if r < 269 then 247 else 247
  }

  function Lhs9(r: int): int {
    if r < 285 then
     if r < 277 then
      if r < 273 then
       if r < 271 then 248 else if r < 272 then 196 else 196
      else
       if r < 275 then if r < 274 then 196 else 250 else if r < 276 then 250 else 144
     else
      if r < 281 then
       if r < 279 then if r < 278 then 145 else 145 else if r < 280 then 146 else 146
      else
       if r < 283 then if r < 282 then 147 else 151 else if r < 284 then 151 else 151
    else
     if r < 292 then
      if r < 288 then
       if r < 286 then 153 else if r < 287 then 153 else 149
      else
       if r < 290 then if r < 289 then 160 else 160 else if r < 291 then 152 else 152
     else
      if r < 296 then
       if r < 294 then if r < 293 then 152 else 166 else if r < 295 then 167 else 168
      else
       if r < 298 then if r < 297 then 168 else 165 else if r < 299 then 165 else 171
  }

  function Lhs10(r: int): int {
    if r < 315 then
     if r < 307 then
      if r < 303 then
       if r < 301 then 161 else if r < 302 then 183 else 183
      else
       if r < 305 then if r < 304 then 184 else 188 else if r < 306 then 190 else 194
     else
      if r < 311 then
       if r < 309 then if r < 308 then 195 else 209 else if r < 310 then 210 else 173
      else
       if r < 313 then if r < 312 then 208 else 230 else if r < 314 then 230 else 230
    else
     if r < 322 then
      if r < 318 then
       if r < 316 then 230 else if r < 317 then 230 else 169
      else
       if r < 320 then if r < 319 then 235 else 235 else if r < 321 then 238 else 239
     else
      if r < 326 then
       if r < 324 then if r < 323 then 240 else 240 else if r < 325 then 243 else 243
      else
       if r < 328 then if r < 327 then 245 else 245 else if r < 329 then 246 else 249
  }

  function Lhs11(r: int): int {
    if r < 331 then 249 else 249
  }

  /** yyRuleInfo: the symbol a rule reduces to, */
  function Lhs(r: int): int {
    if r < 180 then
     if r < 90 then
      if r < 30 then Lhs0(r) else if r < 60 then Lhs1(r) else Lhs2(r)
     else
      if r < 120 then Lhs3(r) else if r < 150 then Lhs4(r) else Lhs5(r)
    else
     if r < 270 then
      if r < 210 then Lhs6(r) else if r < 240 then Lhs7(r) else Lhs8(r)
     else
      if r < 300 then Lhs9(r) else if r < 330 then Lhs10(r) else Lhs11(r)
  }

  function Length0(r: int): int {
    if r < 15 then
     if r < 7 then
      if r < 3 then
       if r < 1 then 1 else if r < 2 then 3 else 1
      else
       if r < 5 then if r < 4 then 3 else 0 else if r < 6 then 1 else 1
     else
      if r < 11 then
       if r < 9 then if r < 8 then 1 else 2 else if r < 10 then 2 else 2
      else
       if r < 13 then if r < 12 then 2 else 3 else if r < 14 then 5 else 6
    else
     if r < 22 then
      if r < 18 then
       if r < 16 then 1 else if r < 17 then 0 else 3
      else
       if r < 20 then if r < 19 then 1 else 0 else if r < 21 then 5 else 2
     else
      if r < 26 then
       if r < 24 then if r < 23 then 0 else 2 else if r < 25 then 2 else 0
      else
       if r < 28 then if r < 27 then 4 else 6 else if r < 29 then 2 else 2
  }

  function Length1(r: int): int {
    if r < 45 then
     if r < 37 then
      if r < 33 then
       if r < 31 then 2 else if r < 32 then 4 else 3
      else
       if r < 35 then if r < 34 then 3 else 2 else if r < 36 then 3 else 5
     else
      if r < 41 then
       if r < 39 then if r < 38 then 2 else 4 else if r < 40 then 4 else 1
      else
       if r < 43 then if r < 42 then 2 else 0 else if r < 44 then 1 else 0
    else
     if r < 52 then
      if r < 48 then
       if r < 46 then 2 else if r < 47 then 2 else 3
      else
       if r < 50 then if r < 49 then 3 else 3 else if r < 51 then 2 else 2
     else
      if r < 56 then
       if r < 54 then if r < 53 then 1 else 1 else if r < 55 then 2 else 3
      else
       if r < 58 then if r < 57 then 2 else 0 else if r < 59 then 2 else 2
  }

  function Length2(r: int): int {
    if r < 75 then
     if r < 67 then
      if r < 63 then
       if r < 61 then 0 else if r < 62 then 1 else 2
      else
       if r < 65 then if r < 64 then 7 else 5 else if r < 66 then 5 else 10
     else
      if r < 71 then
       if r < 69 then if r < 68 then 0 else 0 else if r < 70 then 3 else 0
      else
       if r < 73 then if r < 72 then 2 else 1 else if r < 74 then 1 else 4
    else
     if r < 82 then
      if r < 78 then
       if r < 76 then 2 else if r < 77 then 0 else 9
      else
       if r < 80 then if r < 79 then 4 else 1 else if r < 81 then 2 else 3
     else
      if r < 86 then
       if r < 84 then if r < 83 then 1 else 2 else if r < 85 then 1 else 9
      else
       if r < 88 then if r < 87 then 4 else 5 else if r < 89 then 1 else 1
  }

  function Length3(r: int): int {
    if r < 105 then
     if r < 97 then
      if r < 93 then
       if r < 91 then 0 else if r < 92 then 0 else 3
      else
       if r < 95 then if r < 94 then 2 else 4 else if r < 96 then 2 else 0
     else
      if r < 101 then
       if r < 99 then if r < 98 then 0 else 2 else if r < 100 then 2 else 0
      else
       if r < 103 then if r < 102 then 7 else 9 else if r < 104 then 7 else 7
    else
     if r < 112 then
      if r < 108 then
       if r < 106 then 0 else if r < 107 then 2 else 2
      else
       if r < 110 then if r < 109 then 1 else 2 else if r < 111 then 3 else 4
     else
      if r < 116 then
       if r < 114 then if r < 113 then 2 else 0 else if r < 115 then 0 else 3
      else
       if r < 118 then if r < 117 then 2 else 4 else if r < 119 then 0 else 0
  }

  function Length4(r: int): int {
    if r < 135 then
     if r < 127 then
      if r < 123 then
       if r < 121 then 3 else if r < 122 then 4 else 2
      else
       if r < 125 then if r < 124 then 1 else 1 else if r < 126 then 0 else 0
     else
      if r < 131 then
       if r < 129 then if r < 128 then 3 else 0 else if r < 130 then 2 else 0
      else
       if r < 133 then if r < 132 then 2 else 4 else if r < 134 then 4 else 8
    else
     if r < 142 then
      if r < 138 then
       if r < 136 then 0 else if r < 137 then 2 else 10
      else
       if r < 140 then if r < 139 then 5 else 7 else if r < 141 then 3 else 5
     else
      if r < 146 then
       if r < 144 then if r < 143 then 6 else 7 else if r < 145 then 2 else 1
      else
       if r < 148 then if r < 147 then 0 else 3 else if r < 149 then 3 else 1
  }

  function Length5(r: int): int {
    if r < 165 then
     if r < 157 then
      if r < 153 then
       if r < 151 then 3 else if r < 152 then 1 else 1
      else
       if r < 155 then if r < 154 then 1 else 3 else if r < 156 then 5 else 1
     else
      if r < 161 then
       if r < 159 then if r < 158 then 1 else 1 else if r < 160 then 1 else 3
      else
       if r < 163 then if r < 162 then 6 else 5 else if r < 164 then 4 else 1
    else
     if r < 172 then
      if r < 168 then
       if r < 166 then 5 else if r < 167 then 3 else 3
      else
       if r < 170 then if r < 169 then 3 else 3 else if r < 171 then 3 else 3
     else
      if r < 176 then
       if r < 174 then if r < 173 then 3 else 3 else if r < 175 then 1 else 2
      else
       if r < 178 then if r < 177 then 3 else 5 else if r < 179 then 2 else 3
  }

  function Length6(r: int): int {
    if r < 195 then
     if r < 187 then
      if r < 183 then
       if r < 181 then 3 else if r < 182 then 4 else 2
      else
       if r < 185 then if r < 184 then 2 else 2 else if r < 186 then 2 else 1
     else
      if r < 191 then
       if r < 189 then if r < 188 then 2 else 5 else if r < 190 then 1 else 2
      else
       if r < 193 then if r < 192 then 5 else 3 else if r < 194 then 5 else 5
    else
     if r < 202 then
      if r < 198 then
       if r < 196 then 4 else if r < 197 then 5 else 5
      else
       if r < 200 then if r < 199 then 4 else 2 else if r < 201 then 0 else 1
     else
      if r < 206 then
       if r < 204 then if r < 203 then 0 else 0 else if r < 205 then 3 else 1
      else
       if r < 208 then if r < 207 then 0 else 3 else if r < 209 then 12 else 1
  }

  function Length7(r: int): int {
    if r < 225 then
     if r < 217 then
      if r < 213 then
       if r < 211 then 0 else if r < 212 then 0 else 3
      else
       if r < 215 then if r < 214 then 5 else 3 else if r < 216 then 0 else 2
     else
      if r < 221 then
       if r < 219 then if r < 218 then 4 else 1 else if r < 220 then 2 else 3
      else
       if r < 223 then if r < 222 then 5 else 6 else if r < 224 then 5 else 6
    else
     if r < 232 then
      if r < 228 then
       if r < 226 then 2 else if r < 227 then 2 else 5
      else
       if r < 230 then if r < 229 then 11 else 1 else if r < 231 then 1 else 2
     else
      if r < 236 then
       if r < 234 then if r < 233 then 0 else 1 else if r < 235 then 1 else 3
      else
       if r < 238 then if r < 237 then 0 else 2 else if r < 239 then 3 else 2
  }

  function Length8(r: int): int {
    if r < 255 then
     if r < 247 then
      if r < 243 then
       if r < 241 then 3 else if r < 242 then 3 else 2
      else
       if r < 245 then if r < 244 then 7 else 5 else if r < 246 then 5 else 1
     else
      if r < 251 then
       if r < 249 then if r < 248 then 4 else 6 else if r < 250 then 1 else 1
      else
       if r < 253 then if r < 252 then 1 else 4 else if r < 254 then 6 else 3
    else
     if r < 262 then
      if r < 258 then
       if r < 256 then 0 else if r < 257 then 2 else 1
      else
       if r < 260 then if r < 259 then 3 else 1 else if r < 261 then 3 else 6
     else
      if r < 266 then
       if r < 264 then if r < 263 then 7 else 1 else if r < 265 then 1 else 4
      else
       if r < 268 then if r < 267 then 8 else 0 else if r < 269 then 1 else 3
  }

  function Length9(r: int): int {
    if r < 285 then
     if r < 277 then
      if r < 273 then
       if r < 271 then 1 else if r < 272 then 0 else 2
      else
       if r < 275 then if r < 274 then 3 else 6 else if r < 276 then 8 else 1
     else
      if r < 281 then
       if r < 279 then if r < 278 then 2 else 1 else if r < 280 then 1 else 3
      else
       if r < 283 then if r < 282 then 0 else 0 else if r < 284 then 1 else 2
    else
     if r < 292 then
      if r < 288 then
       if r < 286 then 1 else if r < 287 then 0 else 2
      else
       if r < 290 then if r < 289 then 4 else 2 else if r < 291 then 1 else 1
     else
      if r < 296 then
       if r < 294 then if r < 293 then 1 else 1 else if r < 295 then 1 else 1
      else
       if r < 298 then if r < 297 then 1 else 2 else if r < 299 then 0 else 2
  }

  function Length10(r: int): int {
    if r < 315 then
     if r < 307 then
      if r < 303 then
       if r < 301 then 2 else if r < 302 then 3 else 1
      else
       if r < 305 then if r < 304 then 0 else 1 else if r < 306 then 1 else 1
     else
      if r < 311 then
       if r < 309 then if r < 308 then 1 else 2 else if r < 310 then 1 else 1
      else
       if r < 313 then if r < 312 then 1 else 1 else if r < 314 then 1 else 1
    else
     if r < 322 then
      if r < 318 then
       if r < 316 then 1 else if r < 317 then 1 else 1
      else
       if r < 320 then if r < 319 then 0 else 3 else if r < 321 then 1 else 0
     else
      if r < 326 then
       if r < 324 then if r < 323 then 1 else 0 else if r < 325 then 0 else 1
      else
       if r < 328 then if r < 327 then 1 else 3 else if r < 329 then 2 else 0
  }

  function Length11(r: int): int {
    if r < 331 then 4 else 2
  }

  /** yyRuleInfo: and how many symbols it consumes. */
  function Length(r: int): int {
    if r < 180 then
     if r < 90 then
      if r < 30 then Length0(r) else if r < 60 then Length1(r) else Length2(r)
     else
      if r < 120 then Length3(r) else if r < 150 then Length4(r) else Length5(r)
    else
     if r < 270 then
      if r < 210 then Length6(r) else if r < 240 then Length7(r) else Length8(r)
     else
      if r < 300 then Length9(r) else if r < 330 then Length10(r) else Length11(r)
  }

  function Slot0(c: int): int {
    if c < 97 then
     if c < 33 then
      if c < 17 then
       if c < 1 then 0 else if c < 2 then 2 else 0
      else
       if c < 19 then if c < 18 then 2 else 3 else if c < 20 then 4 else 0
     else
      if c < 51 then
       if c < 49 then if c < 34 then 149 else 0 else if c < 50 then 5 else 150
      else
       if c < 81 then if c < 52 then 151 else 0 else if c < 82 then 7 else 0
    else
     if c < 145 then
      if c < 114 then
       if c < 98 then 8 else if c < 113 then 0 else 9
      else
       if c < 130 then if c < 129 then 0 else 10 else if c < 131 then 151 else 0
     else
      if c < 162 then
       if c < 147 then if c < 146 then 11 else 151 else if c < 161 then 0 else 12
      else
       if c < 177 then if c < 163 then 151 else 0 else if c < 178 then 13 else 152
  }

  function Slot1(c: int): int {
    if c < 229 then
     if c < 211 then
      if c < 195 then
       if c < 193 then 0 else if c < 194 then 14 else 153
      else
       if c < 209 then if c < 196 then 152 else 0 else if c < 210 then 12 else 151
     else
      if c < 225 then
       if c < 213 then if c < 212 then 15 else 153 else if c < 214 then 152 else 0
      else
       if c < 227 then if c < 226 then 156 else 157 else if c < 228 then 16 else 158
    else
     if c < 275 then
      if c < 241 then
       if c < 230 then 152 else if c < 231 then 159 else 0
      else
       if c < 273 then if c < 242 then 17 else 0 else if c < 274 then 18 else 19
     else
      if c < 321 then
       if c < 289 then if c < 276 then 20 else 0 else if c < 290 then 21 else 0
      else
       if c < 323 then if c < 322 then 22 else 160 else if c < 324 then 161 else 23
  }

  function Slot2(c: int): int {
    if c < 421 then
     if c < 371 then
      if c < 338 then
       if c < 326 then 162 else if c < 337 then 0 else 24
      else
       if c < 369 then if c < 339 then 163 else 0 else if c < 370 then 25 else 152
     else
      if c < 417 then
       if c < 386 then if c < 385 then 0 else 152 else if c < 387 then 166 else 0
      else
       if c < 419 then if c < 418 then 167 else 22 else if c < 420 then 168 else 23
    else
     if c < 439 then
      if c < 435 then
       if c < 433 then 0 else if c < 434 then 167 else 22
      else
       if c < 437 then if c < 436 then 168 else 26 else if c < 438 then 168 else 23
     else
      if c < 465 then
       if c < 450 then if c < 449 then 0 else 167 else if c < 451 then 252 else 0
      else
       if c < 467 then if c < 466 then 99 else 152 else if c < 481 then 0 else 100
  }

  function Slot3(c: int): int {
    if c < 545 then
     if c < 513 then
      if c < 498 then
       if c < 483 then 172 else if c < 497 then 0 else 100
      else
       if c < 500 then if c < 499 then 22 else 173 else if c < 501 then 23 else 0
     else
      if c < 529 then
       if c < 515 then if c < 514 then 100 else 47 else if c < 516 then 172 else 0
      else
       if c < 531 then if c < 530 then 100 else 48 else if c < 532 then 172 else 0
    else
     if c < 577 then
      if c < 561 then
       if c < 546 then 100 else if c < 547 then 253 else 0
      else
       if c < 563 then if c < 562 then 19 else 101 else if c < 564 then 174 else 0
     else
      if c < 581 then
       if c < 579 then if c < 578 then 102 else 79 else if c < 580 then 175 else 174
      else
       if c < 593 then if c < 582 then 176 else 0 else if c < 594 then 103 else 174
  }

  function Slot4(c: int): int {
    if c < 659 then
     if c < 626 then
      if c < 611 then
       if c < 609 then 0 else if c < 610 then 104 else 22
      else
       if c < 613 then if c < 612 then 173 else 23 else if c < 625 then 0 else 105
     else
      if c < 641 then
       if c < 628 then if c < 627 then 152 else 177 else if c < 629 then 178 else 0
      else
       if c < 657 then if c < 642 then 179 else 0 else if c < 658 then 53 else 252
    else
     if c < 738 then
      if c < 721 then
       if c < 689 then 0 else if c < 690 then 106 else 0
      else
       if c < 723 then if c < 722 then 178 else 180 else if c < 737 then 0 else 30
     else
      if c < 755 then
       if c < 753 then if c < 739 then 152 else 0 else if c < 754 then 107 else 108
      else
       if c < 769 then if c < 756 then 181 else 0 else if c < 770 then 107 else 109
  }

  function Slot5(c: int): int {
    if c < 850 then
     if c < 802 then
      if c < 786 then
       if c < 772 then 181 else if c < 785 then 0 else 107
      else
       if c < 788 then if c < 787 then 110 else 181 else if c < 801 then 0 else 111
     else
      if c < 819 then
       if c < 817 then if c < 803 then 101 else 0 else if c < 818 then 111 else 100
      else
       if c < 834 then if c < 833 then 0 else 65 else if c < 849 then 0 else 86
    else
     if c < 884 then
      if c < 867 then
       if c < 865 then 0 else if c < 866 then 78 else 58
      else
       if c < 882 then if c < 881 then 0 else 19 else if c < 883 then 112 else 182
     else
      if c < 929 then
       if c < 898 then if c < 897 then 0 else 112 else if c < 899 then 182 else 0
      else
       if c < 931 then if c < 930 then 76 else 7 else if c < 945 then 0 else 76
  }

  function Slot6(c: int): int {
    if c < 1025 then
     if c < 1009 then
      if c < 978 then
       if c < 947 then 8 else if c < 977 then 0 else 26
      else
       if c < 994 then if c < 993 then 0 else 99 else if c < 995 then 152 else 0
     else
      if c < 1013 then
       if c < 1011 then if c < 1010 then 102 else 79 else if c < 1012 then 22 else 186
      else
       if c < 1015 then if c < 1014 then 176 else 23 else if c < 1016 then 174 else 0
    else
     if c < 1042 then
      if c < 1028 then
       if c < 1026 then 103 else if c < 1027 then 22 else 186
      else
       if c < 1030 then if c < 1029 then 23 else 174 else if c < 1041 then 0 else 104
     else
      if c < 1046 then
       if c < 1044 then if c < 1043 then 22 else 173 else if c < 1045 then 23 else 174
      else
       if c < 1058 then if c < 1057 then 0 else 113 else if c < 1059 then 79 else 22
  }

  function Slot7(c: int): int {
    if c < 1153 then
     if c < 1067 then
      if c < 1063 then
       if c < 1061 then 187 else if c < 1062 then 23 else 105
      else
       if c < 1065 then if c < 1064 then 152 else 177 else if c < 1066 then 178 else 188
     else
      if c < 1108 then
       if c < 1106 then if c < 1105 then 0 else 107 else if c < 1107 then 68 else 190
      else
       if c < 1138 then if c < 1137 then 0 else 27 else if c < 1139 then 190 else 0
    else
     if c < 1188 then
      if c < 1170 then
       if c < 1154 then 75 else if c < 1169 then 0 else 85
      else
       if c < 1186 then if c < 1185 then 0 else 114 else if c < 1187 then 16 else 192
     else
      if c < 1203 then
       if c < 1201 then if c < 1189 then 193 else 0 else if c < 1202 then 18 else 20
      else
       if c < 1234 then if c < 1233 then 0 else 156 else if c < 1235 then 157 else 90
  }

  function Slot8(c: int): int {
    if c < 1282 then
     if c < 1249 then
      if c < 1239 then
       if c < 1237 then 158 else if c < 1238 then 152 else 159
      else
       if c < 1241 then if c < 1240 then 177 else 24 else if c < 1242 then 163 else 0
     else
      if c < 1253 then
       if c < 1251 then if c < 1250 then 114 else 90 else if c < 1252 then 192 else 193
      else
       if c < 1266 then if c < 1265 then 0 else 163 else if c < 1281 then 0 else 196
    else
     if c < 1314 then
      if c < 1298 then
       if c < 1283 then 194 else if c < 1297 then 0 else 194
      else
       if c < 1300 then if c < 1299 then 197 else 195 else if c < 1313 then 0 else 115
     else
      if c < 1345 then
       if c < 1330 then if c < 1329 then 0 else 115 else if c < 1331 then 116 else 0
      else
       if c < 1361 then if c < 1346 then 254 else 0 else if c < 1362 then 119 else 198
  }

  function Slot9(c: int): int {
    if c < 1395 then
     if c < 1370 then
      if c < 1366 then
       if c < 1364 then 199 else if c < 1365 then 200 else 201
      else
       if c < 1368 then if c < 1367 then 202 else 203 else if c < 1369 then 204 else 205
     else
      if c < 1380 then
       if c < 1378 then if c < 1377 then 0 else 120 else if c < 1379 then 22 else 207
      else
       if c < 1393 then if c < 1381 then 23 else 0 else if c < 1394 then 206 else 26
    else
     if c < 1426 then
      if c < 1398 then
       if c < 1396 then 22 else if c < 1397 then 208 else 23
      else
       if c < 1410 then if c < 1409 then 0 else 121 else if c < 1425 then 0 else 116
     else
      if c < 1476 then
       if c < 1474 then if c < 1473 then 0 else 209 else if c < 1475 then 173 else 210
      else
       if c < 1490 then if c < 1489 then 0 else 209 else if c < 1491 then 49 else 0
  }

  function Slot10(c: int): int {
    if c < 1618 then
     if c < 1523 then
      if c < 1508 then
       if c < 1506 then 209 else if c < 1507 then 152 else 122
      else
       if c < 1521 then if c < 1509 then 49 else 0 else if c < 1522 then 24 else 152
     else
      if c < 1585 then
       if c < 1570 then if c < 1569 then 0 else 123 else if c < 1571 then 211 else 0
      else
       if c < 1587 then if c < 1586 then 211 else 213 else if c < 1617 then 0 else 212
    else
     if c < 1633 then
      if c < 1621 then
       if c < 1619 then 152 else if c < 1620 then 159 else 210
      else
       if c < 1623 then if c < 1622 then 214 else 215 else if c < 1624 then 216 else 0
     else
      if c < 1637 then
       if c < 1635 then if c < 1634 then 212 else 152 else if c < 1636 then 159 else 22
      else
       if c < 1639 then if c < 1638 then 208 else 23 else if c < 1640 then 210 else 215
  }

  function Slot11(c: int): int {
    if c < 1670 then
     if c < 1654 then
      if c < 1650 then
       if c < 1642 then 216 else if c < 1649 then 0 else 212
      else
       if c < 1652 then if c < 1651 then 22 else 163 else if c < 1653 then 23 else 210
     else
      if c < 1666 then
       if c < 1656 then if c < 1655 then 215 else 216 else if c < 1665 then 0 else 212
      else
       if c < 1668 then if c < 1667 then 22 else 211 else if c < 1669 then 23 else 210
    else
     if c < 1714 then
      if c < 1697 then
       if c < 1671 then 215 else if c < 1672 then 216 else 0
      else
       if c < 1699 then if c < 1698 then 122 else 152 else if c < 1713 then 0 else 152
     else
      if c < 1745 then
       if c < 1729 then if c < 1715 then 159 else 0 else if c < 1730 then 255 else 0
      else
       if c < 1747 then if c < 1746 then 98 else 124 else if c < 1761 then 0 else 98
  }

  function Slot12(c: int): int {
    if c < 1858 then
     if c < 1793 then
      if c < 1777 then
       if c < 1763 then 152 else if c < 1764 then 124 else 0
      else
       if c < 1780 then if c < 1778 then 98 else 152 else if c < 1781 then 124 else 0
     else
      if c < 1842 then
       if c < 1795 then if c < 1794 then 107 else 173 else if c < 1841 then 0 else 56
      else
       if c < 1844 then if c < 1843 then 64 else 152 else if c < 1857 then 0 else 19
    else
     if c < 1921 then
      if c < 1874 then
       if c < 1859 then 56 else if c < 1873 then 0 else 125
      else
       if c < 1876 then if c < 1875 then 22 else 217 else if c < 1877 then 23 else 0
     else
      if c < 1937 then
       if c < 1923 then if c < 1922 then 126 else 64 else if c < 1924 then 186 else 0
      else
       if c < 1939 then if c < 1938 then 186 else 26 else if c < 1940 then 173 else 175
  }

  function Slot13(c: int): int {
    if c < 2097 then
     if c < 1986 then
      if c < 1955 then
       if c < 1953 then 0 else if c < 1954 then 173 else 175
      else
       if c < 1970 then if c < 1969 then 0 else 61 else if c < 1985 then 0 else 70
     else
      if c < 2036 then
       if c < 2034 then if c < 2033 then 0 else 127 else if c < 2035 then 64 else 207
      else
       if c < 2066 then if c < 2065 then 0 else 128 else if c < 2067 then 173 else 0
    else
     if c < 2117 then
      if c < 2113 then
       if c < 2098 then 129 else if c < 2099 then 173 else 0
      else
       if c < 2115 then if c < 2114 then 129 else 173 else if c < 2116 then 81 else 173
     else
      if c < 2132 then
       if c < 2130 then if c < 2129 then 0 else 129 else if c < 2131 then 173 else 26
      else
       if c < 2145 then if c < 2133 then 173 else 0 else if c < 2146 then 196 else 109
  }

  function Slot14(c: int): int {
    if c < 2198 then
     if c < 2177 then
      if c < 2150 then
       if c < 2148 then 123 else if c < 2149 then 193 else 214
      else
       if c < 2152 then if c < 2151 then 201 else 204 else if c < 2153 then 205 else 0
     else
      if c < 2194 then
       if c < 2179 then if c < 2178 then 130 else 173 else if c < 2193 then 0 else 196
      else
       if c < 2196 then if c < 2195 then 110 else 189 else if c < 2197 then 193 else 214
    else
     if c < 2210 then
      if c < 2201 then
       if c < 2199 then 111 else if c < 2200 then 218 else 201
      else
       if c < 2203 then if c < 2202 then 204 else 205 else if c < 2209 then 0 else 218
     else
      if c < 2214 then
       if c < 2212 then if c < 2211 then 26 else 152 else if c < 2213 then 37 else 173
      else
       if c < 2226 then if c < 2225 then 0 else 218 else if c < 2227 then 26 else 22
  }

  function Slot15(c: int): int {
    if c < 2273 then
     if c < 2243 then
      if c < 2231 then
       if c < 2229 then 217 else if c < 2230 then 23 else 37
      else
       if c < 2241 then if c < 2232 then 173 else 0 else if c < 2242 then 152 else 37
     else
      if c < 2259 then
       if c < 2257 then if c < 2244 then 173 else 0 else if c < 2258 then 22 else 217
      else
       if c < 2261 then if c < 2260 then 23 else 37 else if c < 2262 then 173 else 0
    else
     if c < 2289 then
      if c < 2276 then
       if c < 2274 then 196 else if c < 2275 then 219 else 131
      else
       if c < 2278 then if c < 2277 then 193 else 220 else if c < 2279 then 163 else 0
     else
      if c < 2293 then
       if c < 2291 then if c < 2290 then 196 else 219 else if c < 2292 then 131 else 193
      else
       if c < 2295 then if c < 2294 then 220 else 100 else if c < 2296 then 120 else 0
  }

  function Slot16(c: int): int {
    if c < 2401 then
     if c < 2355 then
      if c < 2321 then
       if c < 2306 then 108 else if c < 2307 then 189 else 0
      else
       if c < 2353 then if c < 2322 then 85 else 0 else if c < 2354 then 22 else 217
     else
      if c < 2371 then
       if c < 2369 then if c < 2356 then 23 else 0 else if c < 2370 then 217 else 26
      else
       if c < 2385 then if c < 2372 then 152 else 0 else if c < 2386 then 152 else 0
    else
     if c < 2434 then
      if c < 2404 then
       if c < 2402 then 22 else if c < 2403 then 173 else 23
      else
       if c < 2418 then if c < 2417 then 0 else 101 else if c < 2433 then 0 else 253
     else
      if c < 2466 then
       if c < 2450 then if c < 2449 then 0 else 98 else if c < 2465 then 0 else 152
      else
       if c < 2468 then if c < 2467 then 122 else 152 else if c < 2481 then 0 else 152
  }

  function Slot17(c: int): int {
    if c < 2563 then
     if c < 2513 then
      if c < 2485 then
       if c < 2483 then 122 else if c < 2484 then 152 else 122
      else
       if c < 2497 then if c < 2486 then 152 else 0 else if c < 2498 then 256 else 0
     else
      if c < 2545 then
       if c < 2529 then if c < 2514 then 97 else 0 else if c < 2530 then 134 else 0
      else
       if c < 2561 then if c < 2546 then 135 else 0 else if c < 2562 then 173 else 53
    else
     if c < 2582 then
      if c < 2578 then
       if c < 2564 then 252 else if c < 2577 then 0 else 66
      else
       if c < 2580 then if c < 2579 then 22 else 173 else if c < 2581 then 24 else 166
     else
      if c < 2595 then
       if c < 2593 then if c < 2583 then 23 else 0 else if c < 2594 then 253 else 22
      else
       if c < 2597 then if c < 2596 then 198 else 208 else if c < 2598 then 23 else 0
  }

  function Slot18(c: int): int {
    if c < 2659 then
     if c < 2641 then
      if c < 2612 then
       if c < 2610 then 253 else if c < 2611 then 22 else 49
      else
       if c < 2625 then if c < 2613 then 23 else 0 else if c < 2626 then 95 else 0
     else
      if c < 2645 then
       if c < 2643 then if c < 2642 then 22 else 207 else if c < 2644 then 26 else 173
      else
       if c < 2657 then if c < 2646 then 23 else 0 else if c < 2658 then 173 else 28
    else
     if c < 2690 then
      if c < 2674 then
       if c < 2660 then 173 else if c < 2673 then 0 else 173
      else
       if c < 2676 then if c < 2675 then 27 else 173 else if c < 2689 then 0 else 173
     else
      if c < 2706 then
       if c < 2692 then if c < 2691 then 257 else 173 else if c < 2705 then 0 else 173
      else
       if c < 2708 then if c < 2707 then 258 else 173 else if c < 2721 then 0 else 173
  }

  function Slot19(c: int): int {
    if c < 2785 then
     if c < 2753 then
      if c < 2737 then
       if c < 2723 then 259 else if c < 2724 then 173 else 0
      else
       if c < 2739 then if c < 2738 then 173 else 260 else if c < 2740 then 173 else 0
     else
      if c < 2769 then
       if c < 2755 then if c < 2754 then 173 else 261 else if c < 2756 then 173 else 0
      else
       if c < 2771 then if c < 2770 then 173 else 52 else if c < 2772 then 173 else 0
    else
     if c < 2819 then
      if c < 2802 then
       if c < 2786 then 262 else if c < 2801 then 0 else 19
      else
       if c < 2817 then if c < 2803 then 262 else 0 else if c < 2818 then 173 else 221
     else
      if c < 2835 then
       if c < 2833 then if c < 2820 then 173 else 0 else if c < 2834 then 173 else 221
      else
       if c < 2837 then if c < 2836 then 173 else 42 else if c < 2838 then 173 else 0
  }

  function Slot20(c: int): int {
    if c < 2901 then
     if c < 2881 then
      if c < 2865 then
       if c < 2850 then 173 else if c < 2851 then 263 else 0
      else
       if c < 2867 then if c < 2866 then 173 else 19 else if c < 2868 then 101 else 0
     else
      if c < 2897 then
       if c < 2883 then if c < 2882 then 173 else 29 else if c < 2884 then 173 else 0
      else
       if c < 2899 then if c < 2898 then 173 else 29 else if c < 2900 then 19 else 173
    else
     if c < 2945 then
      if c < 2915 then
       if c < 2913 then 0 else if c < 2914 then 19 else 173
      else
       if c < 2930 then if c < 2929 then 0 else 54 else if c < 2931 then 173 else 0
     else
      if c < 2962 then
       if c < 2947 then if c < 2946 then 48 else 173 else if c < 2961 then 0 else 47
      else
       if c < 2977 then if c < 2963 then 173 else 0 else if c < 2978 then 32 else 0
  }

  function Slot21(c: int): int {
    if c < 3058 then
     if c < 3013 then
      if c < 3009 then
       if c < 2994 then 19 else if c < 2995 then 32 else 0
      else
       if c < 3011 then if c < 3010 then 173 else 222 else if c < 3012 then 173 else 28
     else
      if c < 3041 then
       if c < 3025 then if c < 3014 then 173 else 0 else if c < 3026 then 33 else 0
      else
       if c < 3043 then if c < 3042 then 19 else 33 else if c < 3057 then 0 else 173
    else
     if c < 3075 then
      if c < 3061 then
       if c < 3059 then 223 else if c < 3060 then 22 else 208
      else
       if c < 3073 then if c < 3062 then 23 else 0 else if c < 3074 then 22 else 163
     else
      if c < 3091 then
       if c < 3089 then if c < 3076 then 23 else 0 else if c < 3090 then 173 else 223
      else
       if c < 3093 then if c < 3092 then 22 else 163 else if c < 3094 then 23 else 0
  }

  function Slot22(c: int): int {
    if c < 3141 then
     if c < 3122 then
      if c < 3108 then
       if c < 3106 then 173 else if c < 3107 then 223 else 152
      else
       if c < 3110 then if c < 3109 then 159 else 224 else if c < 3121 then 0 else 20
     else
      if c < 3137 then
       if c < 3124 then if c < 3123 then 22 else 163 else if c < 3125 then 23 else 0
      else
       if c < 3139 then if c < 3138 then 136 else 225 else if c < 3140 then 226 else 227
    else
     if c < 3158 then
      if c < 3154 then
       if c < 3142 then 11 else if c < 3153 then 0 else 226
      else
       if c < 3156 then if c < 3155 then 137 else 173 else if c < 3157 then 138 else 173
     else
      if c < 3172 then
       if c < 3170 then if c < 3169 then 0 else 137 else if c < 3171 then 173 else 138
      else
       if c < 3185 then if c < 3173 then 173 else 0 else if c < 3186 then 139 else 173
  }

  function Slot23(c: int): int {
    if c < 3331 then
     if c < 3281 then
      if c < 3265 then
       if c < 3217 then 0 else if c < 3218 then 173 else 0
      else
       if c < 3267 then if c < 3266 then 207 else 26 else if c < 3268 then 173 else 0
     else
      if c < 3315 then
       if c < 3313 then if c < 3282 then 173 else 0 else if c < 3314 then 22 else 208
      else
       if c < 3329 then if c < 3316 then 23 else 0 else if c < 3330 then 156 else 228
    else
     if c < 3338 then
      if c < 3334 then
       if c < 3332 then 140 else if c < 3333 then 158 else 152
      else
       if c < 3336 then if c < 3335 then 159 else 107 else if c < 3337 then 152 else 22
     else
      if c < 3345 then
       if c < 3340 then if c < 3339 then 186 else 23 else if c < 3341 then 201 else 0
      else
       if c < 3393 then if c < 3346 then 103 else 0 else if c < 3394 then 22 else 187
  }

  function Slot24(c: int): int {
    if c < 3473 then
     if c < 3414 then
      if c < 3410 then
       if c < 3396 then 23 else if c < 3409 then 0 else 187
      else
       if c < 3412 then if c < 3411 then 26 else 152 else if c < 3413 then 229 else 175
     else
      if c < 3428 then
       if c < 3426 then if c < 3425 then 0 else 152 else if c < 3427 then 229 else 175
      else
       if c < 3458 then if c < 3457 then 0 else 53 else if c < 3459 then 252 else 0
    else
     if c < 3505 then
      if c < 3476 then
       if c < 3474 then 114 else if c < 3475 then 140 else 192
      else
       if c < 3489 then if c < 3477 then 193 else 0 else if c < 3490 then 89 else 0
     else
      if c < 3522 then
       if c < 3507 then if c < 3506 then 89 else 152 else if c < 3521 then 0 else 82
      else
       if c < 3524 then if c < 3523 then 152 else 159 else if c < 3537 then 0 else 82
  }

  function Slot25(c: int): int {
    if c < 3572 then
     if c < 3555 then
      if c < 3541 then
       if c < 3539 then 152 else if c < 3540 then 159 else 37
      else
       if c < 3553 then if c < 3542 then 230 else 0 else if c < 3554 then 82 else 152
     else
      if c < 3559 then
       if c < 3557 then if c < 3556 then 159 else 22 else if c < 3558 then 230 else 23
      else
       if c < 3570 then if c < 3569 then 0 else 82 else if c < 3571 then 152 else 159
    else
     if c < 3589 then
      if c < 3585 then
       if c < 3573 then 37 else if c < 3574 then 170 else 0
      else
       if c < 3587 then if c < 3586 then 82 else 152 else if c < 3588 then 159 else 22
     else
      if c < 3602 then
       if c < 3591 then if c < 3590 then 170 else 23 else if c < 3601 then 0 else 47
      else
       if c < 3617 then if c < 3603 then 264 else 0 else if c < 3618 then 48 else 264
  }

  function Slot26(c: int): int {
    if c < 3657 then
     if c < 3649 then
      if c < 3635 then
       if c < 3633 then 0 else if c < 3634 then 156 else 231
      else
       if c < 3637 then if c < 3636 then 5 else 232 else if c < 3638 then 11 else 0
     else
      if c < 3653 then
       if c < 3651 then if c < 3650 then 157 else 88 else if c < 3652 then 158 else 152
      else
       if c < 3655 then if c < 3654 then 159 else 233 else if c < 3656 then 234 else 107
    else
     if c < 3682 then
      if c < 3660 then
       if c < 3658 then 193 else if c < 3659 then 235 else 236
      else
       if c < 3666 then if c < 3665 then 0 else 63 else if c < 3681 then 0 else 59
     else
      if c < 3729 then
       if c < 3698 then if c < 3697 then 0 else 77 else if c < 3699 then 80 else 0
      else
       if c < 3745 then if c < 3730 then 265 else 0 else if c < 3746 then 110 else 0
  }

  function Slot27(c: int): int {
    if c < 3842 then
     if c < 3809 then
      if c < 3764 then
       if c < 3762 then 110 else if c < 3763 then 80 else 217
      else
       if c < 3794 then if c < 3793 then 0 else 137 else if c < 3795 then 173 else 0
     else
      if c < 3825 then
       if c < 3811 then if c < 3810 then 232 else 237 else if c < 3812 then 1 else 0
      else
       if c < 3827 then if c < 3826 then 237 else 1 else if c < 3841 then 0 else 152
    else
     if c < 3873 then
      if c < 3857 then
       if c < 3843 then 122 else if c < 3844 then 152 else 0
      else
       if c < 3859 then if c < 3858 then 56 else 64 else if c < 3860 then 152 else 0
     else
      if c < 3890 then
       if c < 3875 then if c < 3874 then 19 else 56 else if c < 3889 then 0 else 110
      else
       if c < 3892 then if c < 3891 then 189 else 238 else if c < 3893 then 239 else 111
  }

  function Slot28(c: int): int {
    if c < 3937 then
     if c < 3909 then
      if c < 3905 then
       if c < 3895 then 218 else if c < 3896 then 201 else 0
      else
       if c < 3907 then if c < 3906 then 219 else 131 else if c < 3908 then 238 else 220
     else
      if c < 3923 then
       if c < 3921 then if c < 3910 then 163 else 0 else if c < 3922 then 109 else 123
      else
       if c < 3925 then if c < 3924 then 238 else 239 else if c < 3926 then 201 else 0
    else
     if c < 3969 then
      if c < 3954 then
       if c < 3938 then 163 else if c < 3953 then 0 else 83
      else
       if c < 3956 then if c < 3955 then 22 else 75 else if c < 3957 then 23 else 0
     else
      if c < 3973 then
       if c < 3971 then if c < 3970 then 83 else 22 else if c < 3972 then 191 else 26
      else
       if c < 3975 then if c < 3974 then 152 else 23 else if c < 3985 then 0 else 12
  }

  function Slot29(c: int): int {
    if c < 4054 then
     if c < 4035 then
      if c < 4017 then
       if c < 4001 then 0 else if c < 4002 then 57 else 0
      else
       if c < 4033 then if c < 4018 then 73 else 0 else if c < 4034 then 114 else 88
     else
      if c < 4050 then
       if c < 4037 then if c < 4036 then 192 else 193 else if c < 4049 then 0 else 62
      else
       if c < 4052 then if c < 4051 then 240 else 173 else if c < 4053 then 24 else 173
    else
     if c < 4098 then
      if c < 4066 then
       if c < 4055 then 241 else if c < 4065 then 0 else 71
      else
       if c < 4068 then if c < 4067 then 240 else 173 else if c < 4097 then 0 else 79
     else
      if c < 4129 then
       if c < 4113 then if c < 4099 then 173 else 0 else if c < 4114 then 93 else 0
      else
       if c < 4131 then if c < 4130 then 93 else 152 else if c < 4132 then 159 else 0
  }

  function Slot30(c: int): int {
    if c < 4195 then
     if c < 4178 then
      if c < 4162 then
       if c < 4146 then 60 else if c < 4161 then 0 else 60
      else
       if c < 4164 then if c < 4163 then 152 else 159 else if c < 4177 then 0 else 141
     else
      if c < 4182 then
       if c < 4180 then if c < 4179 then 16 else 193 else if c < 4181 then 94 else 15
      else
       if c < 4193 then if c < 4183 then 152 else 0 else if c < 4194 then 141 else 16
    else
     if c < 4210 then
      if c < 4198 then
       if c < 4196 then 242 else if c < 4197 then 142 else 243
      else
       if c < 4200 then if c < 4199 then 164 else 165 else if c < 4209 then 0 else 193
     else
      if c < 4242 then
       if c < 4226 then if c < 4225 then 0 else 244 else if c < 4241 then 0 else 244
      else
       if c < 4244 then if c < 4243 then 22 else 245 else if c < 4245 then 23 else 0
  }

  function Slot31(c: int): int {
    if c < 4321 then
     if c < 4264 then
      if c < 4260 then
       if c < 4258 then 156 else if c < 4259 then 91 else 16
      else
       if c < 4262 then if c < 4261 then 158 else 152 else if c < 4263 then 159 else 125
     else
      if c < 4305 then
       if c < 4289 then if c < 4265 then 152 else 0 else if c < 4290 then 96 else 0
      else
       if c < 4307 then if c < 4306 then 248 else 249 else if c < 4308 then 23 else 0
    else
     if c < 4371 then
      if c < 4354 then
       if c < 4322 then 22 else if c < 4353 then 0 else 92
      else
       if c < 4369 then if c < 4355 then 250 else 0 else if c < 4370 then 92 else 84
     else
      if c < 4387 then
       if c < 4385 then if c < 4372 then 250 else 0 else if c < 4386 then 152 else 177
      else
       if c < 4389 then if c < 4388 then 24 else 22 else if c < 4390 then 163 else 23
  }

  function Slot32(c: int): int {
    if c < 4449 then
     if c < 4407 then
      if c < 4403 then
       if c < 4401 then 0 else if c < 4402 then 250 else 26
      else
       if c < 4405 then if c < 4404 then 152 else 177 else if c < 4406 then 24 else 22
     else
      if c < 4418 then
       if c < 4409 then if c < 4408 then 163 else 23 else if c < 4417 then 0 else 145
      else
       if c < 4434 then if c < 4433 then 0 else 145 else if c < 4435 then 146 else 0
    else
     if c < 4484 then
      if c < 4466 then
       if c < 4450 then 146 else if c < 4465 then 0 else 1
      else
       if c < 4482 then if c < 4481 then 0 else 147 else if c < 4483 then 148 else 1
     else
      if c < 4546 then
       if c < 4530 then if c < 4529 then 0 else 6 else if c < 4545 then 0 else 6
      else
       if c < 4561 then if c < 4547 then 152 else 0 else if c < 4562 then 13 else 0
  }

  function Slot33(c: int): int {
    if c < 4673 then
     if c < 4613 then
      if c < 4609 then
       if c < 4594 then 154 else if c < 4595 then 155 else 0
      else
       if c < 4611 then if c < 4610 then 160 else 26 else if c < 4612 then 164 else 165
     else
      if c < 4641 then
       if c < 4626 then if c < 4625 then 0 else 164 else if c < 4627 then 165 else 0
      else
       if c < 4657 then if c < 4642 then 253 else 0 else if c < 4658 then 97 else 0
    else
     if c < 4722 then
      if c < 4690 then
       if c < 4674 then 98 else if c < 4689 then 0 else 167
      else
       if c < 4706 then if c < 4705 then 0 else 252 else if c < 4721 then 0 else 169
     else
      if c < 4754 then
       if c < 4738 then if c < 4737 then 0 else 170 else if c < 4753 then 0 else 165
      else
       if c < 4785 then if c < 4755 then 171 else 0 else if c < 4786 then 101 else 174
  }

  function Slot34(c: int): int {
    if c < 4898 then
     if c < 4820 then
      if c < 4803 then
       if c < 4801 then 0 else if c < 4802 then 26 else 183
      else
       if c < 4818 then if c < 4817 then 0 else 183 else if c < 4819 then 184 else 185
     else
      if c < 4866 then
       if c < 4834 then if c < 4833 then 0 else 185 else if c < 4865 then 0 else 179
      else
       if c < 4882 then if c < 4881 then 0 else 191 else if c < 4897 then 0 else 195
    else
     if c < 4946 then
      if c < 4929 then
       if c < 4913 then 0 else if c < 4914 then 206 else 0
      else
       if c < 4931 then if c < 4930 then 199 else 26 else if c < 4945 then 0 else 252
     else
      if c < 4978 then
       if c < 4962 then if c < 4961 then 0 else 172 else if c < 4977 then 0 else 207
      else
       if c < 4994 then if c < 4993 then 0 else 169 else if c < 5009 then 0 else 152
  }

  function Slot35(c: int): int {
    if c < 5153 then
     if c < 5073 then
      if c < 5041 then
       if c < 5025 then 0 else if c < 5026 then 107 else 0
      else
       if c < 5057 then if c < 5042 then 109 else 0 else if c < 5058 then 100 else 0
     else
      if c < 5107 then
       if c < 5105 then if c < 5074 then 264 else 0 else if c < 5106 then 74 else 72
      else
       if c < 5121 then if c < 5108 then 87 else 0 else if c < 5122 then 152 else 0
    else
     if c < 5234 then
      if c < 5202 then
       if c < 5154 then 69 else if c < 5201 then 0 else 67
      else
       if c < 5218 then if c < 5217 then 0 else 246 else if c < 5233 then 0 else 245
     else
      if c < 5250 then
       if c < 5236 then if c < 5235 then 26 else 246 else if c < 5249 then 0 else 246
      else
       if c < 5281 then if c < 5251 then 247 else 0 else if c < 5282 then 249 else 22
  }

  function Slot36(c: int): int {
    if c < 5297 then
     if c < 5284 then 249 else if c < 5285 then 23 else 0
    else
     if c < 5298 then 249 else if c < 5299 then 96 else 0
  }

  /** yyRuleName: slot d of rule r, at 16 * r + d.  Codes from YYNOCODE on are token classes. */
  function Slot(c: int): int {
    if c < 2609 then
     if c < 1363 then
      if c < 595 then
       if c < 325 then if c < 179 then Slot0(c) else Slot1(c) else if c < 482 then Slot2(c) else Slot3(c)
      else
       if c < 946 then
        if c < 771 then Slot4(c) else Slot5(c)
       else
        if c < 1060 then Slot6(c) else if c < 1236 then Slot7(c) else Slot8(c)
     else
      if c < 1941 then
       if c < 1641 then
        if c < 1505 then Slot9(c) else Slot10(c)
       else
        if c < 1762 then Slot11(c) else Slot12(c)
      else
       if c < 2228 then
        if c < 2147 then Slot13(c) else Slot14(c)
       else
        if c < 2305 then Slot15(c) else if c < 2482 then Slot16(c) else Slot17(c)
    else
     if c < 3761 then
      if c < 3105 then
       if c < 2849 then
        if c < 2722 then Slot18(c) else Slot19(c)
       else
        if c < 2993 then Slot20(c) else Slot21(c)
      else
       if c < 3395 then
        if c < 3187 then Slot22(c) else Slot23(c)
       else
        if c < 3538 then Slot24(c) else if c < 3619 then Slot25(c) else Slot26(c)
     else
      if c < 4391 then
       if c < 3986 then
        if c < 3894 then Slot27(c) else Slot28(c)
       else
        if c < 4145 then Slot29(c) else if c < 4257 then Slot30(c) else Slot31(c)
      else
       if c < 4787 then
        if c < 4593 then Slot32(c) else Slot33(c)
       else
        if c < 5010 then Slot34(c) else if c < 5283 then Slot35(c) else Slot36(c)
  }

  /** The token classes of the grammar, such as ID|STRING. */
  const CLASSES: seq<set<nat>> := [
    {55, 97},
    {55, 56},
    {117, 118},
    {26, 124},
    {132, 133},
    {40, 38, 41, 39},
    {37, 36},
    {43, 44, 45, 46},
    {47, 48},
    {49, 50, 51},
    {31, 30},
    {34, 35},
    {134, 132},
    {109, 108}]
}
